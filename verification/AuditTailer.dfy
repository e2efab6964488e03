/**
 The follower of the audit file: whatever the growth points at which it looks, it does what one
 pass over the file's complete lines would do.
 */
module AuditTailer {
  import opened Text
  import opened Utf8
  import opened Json
  import opened Correlation

  // ── Cutting complete lines off a growing file ──────────────────────────────

  lemma {:induction false} IndexAppend(a: seq<byte>, b: seq<byte>)
    requires Index(a, NEWLINE) < |a|
    ensures Index(a + b, NEWLINE) == Index(a, NEWLINE)
  {
    if a[0] != NEWLINE {
      assert (a + b)[1..] == a[1..] + b;
      IndexAppend(a[1..], b);
    }
  }

  /** The length of the first line if it is complete and valid UTF-8, and 0 otherwise. */
  function FirstLine(bs: seq<byte>): (n: nat)
    ensures n <= |bs| && (n > 0 ==> bs[n - 1] == NEWLINE)
  {
    var i := Index(bs, NEWLINE);
    if i == |bs| || !IsText(bs[..i + 1]) then 0 else i + 1
  }

  predicate IsText(line: seq<byte>) {
    Decode(line).Some?
  }

  /** A rule that cuts a first piece off a stream, and never changes its mind as the stream grows. */
  ghost predicate IsCut(cut: seq<byte> -> nat) {
    && (forall bs :: cut(bs) <= |bs|)
    && forall a, b :: cut(a) > 0 ==> cut(a + b) == cut(a)
  }

  lemma FirstLineIsCut()
    ensures IsCut(FirstLine)
  {
    forall a: seq<byte>, b: seq<byte> | FirstLine(a) > 0 ensures FirstLine(a + b) == FirstLine(a) {
      var i := Index(a, NEWLINE);
      IndexAppend(a, b);
      assert (a + b)[..i + 1] == a[..i + 1];
    }
  }

  /** The pieces a rule cuts off, one after the other. */
  function Pieces(bs: seq<byte>, cut: seq<byte> -> nat): seq<seq<byte>>
    decreases |bs|
  {
    var n := cut(bs);
    if n == 0 || n > |bs| then [] else [bs[..n]] + Pieces(bs[n..], cut)
  }

  function PiecesLength(bs: seq<byte>, cut: seq<byte> -> nat): (n: nat)
    ensures n <= |bs|
    decreases |bs|
  {
    var n := cut(bs);
    if n == 0 || n > |bs| then 0 else n + PiecesLength(bs[n..], cut)
  }

  /** Resuming after the pieces already cut finds exactly those of the grown stream not cut yet. */
  lemma {:induction false} Resume(a: seq<byte>, b: seq<byte>, cut: seq<byte> -> nat)
    requires IsCut(cut)
    ensures Pieces(a + b, cut) == Pieces(a, cut) + Pieces(a[PiecesLength(a, cut)..] + b, cut)
    decreases |a|
  {
    var k := cut(a);
    if k == 0 {
      assert a[0..] == a;
    } else {
      var t := a[k..];
      var n := PiecesLength(t, cut);
      var rest := t[n..] + b;
      ResumeStep(a, b, k, n);
      PiecesCons(a, k, cut);
      PiecesCons(a + b, k, cut);
      assert a[PiecesLength(a, cut)..] + b == rest;
      Resume(t, b, cut);
      assert Pieces(a + b, cut) == [a[..k]] + (Pieces(t, cut) + Pieces(rest, cut));
      Reassociate([a[..k]], Pieces(t, cut), Pieces(rest, cut));
    }
  }

  lemma PiecesCons(s: seq<byte>, k: nat, cut: seq<byte> -> nat)
    requires cut(s) == k && 0 < k <= |s|
    ensures Pieces(s, cut) == [s[..k]] + Pieces(s[k..], cut)
    ensures PiecesLength(s, cut) == k + PiecesLength(s[k..], cut)
  {
  }

  lemma ResumeStep(a: seq<byte>, b: seq<byte>, k: nat, n: nat)
    requires k + n <= |a|
    ensures (a + b)[..k] == a[..k] && (a + b)[k..] == a[k..] + b && a[k..][n..] == a[k + n..]
  {
  }

  /** The pieces make up a prefix, after which nothing more can be cut. */
  lemma {:induction false} PiecesPartition(bs: seq<byte>, cut: seq<byte> -> nat)
    requires IsCut(cut)
    ensures var n := PiecesLength(bs, cut);
            Concat(Pieces(bs, cut)) == bs[..n] && cut(bs[n..]) == 0
    decreases |bs|
  {
    var k := cut(bs);
    if k == 0 {
      assert bs[0..] == bs;
    } else {
      var t := bs[k..];
      PiecesPartition(t, cut);
      TwoCuts(bs, k, PiecesLength(t, cut));
      ConcatCons(bs[..k], Pieces(t, cut));
    }
  }

  lemma TwoCuts(bs: seq<byte>, k: nat, n: nat)
    requires k + n <= |bs|
    ensures bs[k..][n..] == bs[k + n..] && bs[..k] + bs[k..][..n] == bs[..k + n]
  {
  }

  lemma ConcatCons(p: seq<byte>, rest: seq<seq<byte>>)
    ensures Concat([p] + rest) == p + Concat(rest)
  {
    assert ([p] + rest)[1..] == rest;
  }

  /** The complete lines at the front of a file, up to the first that is not UTF-8. */
  function CompleteLines(file: seq<byte>): seq<seq<byte>> {
    Pieces(file, FirstLine)
  }

  function Fold<S>(step: (S, seq<byte>) -> S, s: S, lines: seq<seq<byte>>): S
    decreases |lines|
  {
    if lines == [] then s else Fold(step, step(s, lines[0]), lines[1..])
  }

  lemma {:induction false} FoldAppend<S>(step: (S, seq<byte>) -> S, s: S, a: seq<seq<byte>>, b: seq<seq<byte>>)
    ensures Fold(step, s, a + b) == Fold(step, Fold(step, s, a), b)
    decreases |a|
  {
    if a == [] {
      assert a + b == b;
    } else {
      assert (a + b)[1..] == a[1..] + b;
      FoldAppend(step, step(s, a[0]), a[1..], b);
    }
  }

  // ── The tailer's state and what one line does to it ────────────────────────

  datatype State = State(
    offset: nat,
    links: Links,
    lastVitals: Option<int>,
    published: seq<(nat, Shown)>)

  const START := State(0, map[], None, [])

  /** The JSON value on a line, trimmed at its end. */
  function ValueOnLine(line: seq<byte>): Option<Json> {
    var text :- Decode(line);
    Parse(TrimEnd(text))
  }

  function EntryOnLine(line: seq<byte>): Option<Entry> {
    var j :- ValueOnLine(line);
    EntryOf(j)
  }

  predicate IsVitals(s: Shown) {
    s.Event? && s.event.Vitals?
  }

  /** Publish at the line's end offset, unless it is a vitals event too soon after the last one. */
  function Publish(st: State, shown: Shown, now: int, interval: nat): State {
    if IsVitals(shown) && st.lastVitals.Some? && now - st.lastVitals.value < interval then st
    else st.(published := st.published + [(st.offset, shown)],
             lastVitals := if IsVitals(shown) then Some(now) else st.lastVitals)
  }

  /** The links after a line and the event it shows. */
  function TranslatedLine(links: Links, line: seq<byte>): (Links, Option<Shown>) {
    match EntryOnLine(line)
    case None => (links, None)
    case Some(e) => (Apply(links, ActionOf(e)), ShownFor(links, e))
  }

  function Absorb(st: State, end: nat, out: (Links, Option<Shown>), now: int, interval: nat): State {
    var next := st.(offset := end, links := out.0);
    match out.1 case None => next case Some(shown) => Publish(next, shown, now, interval)
  }

  /**
   One complete line under a translator; `clock` gives the time at which the line ending at an
   offset is handled.
   */
  function Consume(st: State, line: seq<byte>, tr: Translator, clock: nat -> int, interval: nat): State {
    var end := st.offset + |line|;
    Absorb(st, end, tr(st.links, line), clock(end), interval)
  }

  type Translator = (Links, seq<byte>) -> (Links, Option<Shown>)

  lemma ConsumeInSteps(st: State, line: seq<byte>, out: (Links, Option<Shown>), tr: Translator,
                       clock: nat -> int, interval: nat, mid: State, end: State)
    requires out == tr(st.links, line)
    requires mid == st.(offset := st.offset + |line|, links := out.0)
    requires end == Absorb(mid, mid.offset, out, clock(mid.offset), interval)
    ensures end == Consume(st, line, tr, clock, interval)
  {
    AbsorbOverrides(st, mid, mid.offset, out, clock(mid.offset), interval);
  }

  lemma AbsorbOverrides(st: State, mid: State, end: nat, out: (Links, Option<Shown>), now: int, interval: nat)
    requires mid == st.(offset := mid.offset, links := mid.links)
    ensures Absorb(mid, end, out, now, interval) == Absorb(st, end, out, now, interval)
  {
  }

  function Step(tr: Translator, clock: nat -> int, interval: nat): (State, seq<byte>) -> State {
    (st, line) => Consume(st, line, tr, clock, interval)
  }

  /** One pass over a whole file. */
  function Pass(file: seq<byte>, tr: Translator, clock: nat -> int, interval: nat): State {
    Fold(Step(tr, clock, interval), START, CompleteLines(file))
  }

  /** One look at the file, `len` bytes long when its size was taken and `content` when it was read. */
  function Poll(st: State, len: nat, content: seq<byte>, tr: Translator, clock: nat -> int, interval: nat): State
    requires len <= |content|
  {
    var s := if len < st.offset then st.(offset := 0, links := map[]) else st;
    if len <= s.offset then s
    else Fold(Step(tr, clock, interval), s, CompleteLines(content[s.offset..]))
  }

  class Tailer {
    var offset: nat
    var lastVitals: Option<int>
    var published: seq<(nat, Shown)>
    const tracker: CorrelationTracker
    const interval: nat

    constructor (interval: nat)
      ensures Now() == START && this.interval == interval && fresh(tracker)
    {
      this.offset, this.lastVitals, this.published := 0, None, [];
      this.tracker := new CorrelationTracker();
      this.interval := interval;
    }

    ghost function Now(): State
      reads this, tracker
    {
      State(offset, tracker.links, lastVitals, published)
    }

    /** `translate_line` */
    method TranslateLine(line: seq<byte>) returns (shown: Option<Shown>)
      modifies tracker
      ensures (tracker.links, shown) == TranslatedLine(old(tracker.links), line)
    {
      var text := Decode(line);
      if text.None? {
        return None;
      }
      var value := Parse(TrimEnd(text.value));
      if value.None? {
        return None;
      }
      shown := tracker.Translate(value.value);
    }

    /** The body of the read loop for one complete line. */
    method ConsumeLine(line: seq<byte>, clock: nat -> int)
      modifies this, tracker
      ensures Now() == Consume(old(Now()), line, TranslatedLine, clock, interval)
    {
      offset := offset + |line|;
      var shown := TranslateLine(line);
      ghost var mid := Now();
      Emit(shown, clock(offset));
      ConsumeInSteps(old(Now()), line, (tracker.links, shown), TranslatedLine, clock, interval, mid, Now());
    }

    /** Publishing with the vitals throttle. */
    method Emit(shown: Option<Shown>, now: int)
      modifies this
      ensures Now() == Absorb(old(Now()), old(offset), (old(tracker.links), shown), now, interval)
    {
      if shown.Some? {
        if IsVitals(shown.value) {
          if lastVitals.Some? && now - lastVitals.value < interval {
            return;
          }
          lastVitals := Some(now);
        }
        published := published + [(offset, shown.value)];
      }
    }

    /** `drain_from` */
    method DrainFrom(content: seq<byte>, clock: nat -> int)
      requires offset <= |content|
      modifies this, tracker
      ensures Now() == Fold(Step(TranslatedLine, clock, interval), old(Now()),
                            CompleteLines(content[old(offset)..]))
    {
      ghost var step := Step(TranslatedLine, clock, interval);
      ghost var all := CompleteLines(content[offset..]);
      var rest := content[offset..];
      while true
        invariant Fold(step, Now(), CompleteLines(rest)) == Fold(step, old(Now()), all)
        decreases |rest|
      {
        var n := FirstLine(rest);
        if n == 0 {
          break;
        }
        assert CompleteLines(rest)[1..] == CompleteLines(rest[n..]);
        ConsumeLine(rest[..n], clock);
        rest := rest[n..];
      }
    }

    /** One turn of `run`. */
    method Look(len: nat, content: seq<byte>, clock: nat -> int)
      requires len <= |content|
      modifies this, tracker
      ensures Now() == Poll(old(Now()), len, content, TranslatedLine, clock, interval)
    {
      if len < offset {
        offset := 0;
        tracker.links := map[];
      }
      if len > offset {
        DrainFrom(content, clock);
      }
    }
  }

  // ── Runs over a growing file ───────────────────────────────────────────────

  lemma {:induction false} FoldOffset(step: (State, seq<byte>) -> State, st: State, bs: seq<byte>,
                                      cut: seq<byte> -> nat)
    requires IsCut(cut) && forall s, line :: step(s, line).offset == s.offset + |line|
    ensures Fold(step, st, Pieces(bs, cut)).offset == st.offset + PiecesLength(bs, cut)
    decreases |bs|
  {
    var k := cut(bs);
    if k > 0 {
      PiecesCons(bs, k, cut);
      assert Pieces(bs, cut)[0] == bs[..k] && Pieces(bs, cut)[1..] == Pieces(bs[k..], cut);
      FoldOffset(step, step(st, bs[..k]), bs[k..], cut);
    }
  }

  /** The offset of a pass is the end of the last complete line. */
  lemma PassOffset(file: seq<byte>, tr: Translator, clock: nat -> int, interval: nat)
    ensures Pass(file, tr, clock, interval).offset == PiecesLength(file, FirstLine)
  {
    FirstLineIsCut();
    FoldOffset(Step(tr, clock, interval), START, file, FirstLine);
  }

  /** A poll of a file that grew from `a` to `a + b` since the last one. */
  lemma PollAdvances(a: seq<byte>, b: seq<byte>, len: nat, tr: Translator, clock: nat -> int, interval: nat)
    returns (m: nat)
    requires |a| <= len <= |a + b|
    ensures len <= m <= |a + b|
    ensures Poll(Pass(a, tr, clock, interval), len, a + b, tr, clock, interval)
            == Pass((a + b)[..m], tr, clock, interval)
  {
    var st := Pass(a, tr, clock, interval);
    var n := PiecesLength(a, FirstLine);
    PassOffset(a, tr, clock, interval);
    if len == n {
      m := len;
      assert (a + b)[..m] == a;
    } else {
      m := |a + b|;
      assert (a + b)[..m] == a + b;
      FirstLineIsCut();
      FoldResume(Step(tr, clock, interval), START, a, b, FirstLine);
    }
  }

  lemma FoldResume<S>(step: (S, seq<byte>) -> S, s: S, a: seq<byte>, b: seq<byte>, cut: seq<byte> -> nat)
    requires IsCut(cut)
    ensures Fold(step, s, Pieces(a + b, cut)) ==
            Fold(step, Fold(step, s, Pieces(a, cut)), Pieces((a + b)[PiecesLength(a, cut)..], cut))
  {
    var n := PiecesLength(a, cut);
    Resume(a, b, cut);
    assert (a + b)[n..] == a[n..] + b;
    FoldAppend(step, s, Pieces(a, cut), Pieces(a[n..] + b, cut));
  }

  datatype Observation = Observation(len: nat, content: seq<byte>)

  /** An append-only file seen at any growth points, sized just before it is read. */
  ghost predicate Growing(obs: seq<Observation>) {
    && (forall i :: 0 <= i < |obs| ==> obs[i].len <= |obs[i].content|)
    && forall i :: 0 < i < |obs| ==>
         |obs[i - 1].content| <= obs[i].len && obs[i - 1].content <= obs[i].content
  }

  function Polls(obs: seq<Observation>, tr: Translator, clock: nat -> int, interval: nat): State
    requires forall i :: 0 <= i < |obs| ==> obs[i].len <= |obs[i].content|
  {
    if obs == [] then START
    else
      var o := obs[|obs| - 1];
      Poll(Polls(obs[..|obs| - 1], tr, clock, interval), o.len, o.content, tr, clock, interval)
  }

  /**
   Whatever the growth points: the tailer's whole state, offset, links and published events alike,
   is that of one pass over a prefix of the file that is at least as long as its last seen size.
   */
  lemma {:induction false} TailerIsOnePass(obs: seq<Observation>, tr: Translator, clock: nat -> int, interval: nat)
    returns (m: nat)
    requires obs != [] && Growing(obs)
    ensures var o := obs[|obs| - 1];
            && o.len <= m <= |o.content|
            && Polls(obs, tr, clock, interval) == Pass(o.content[..m], tr, clock, interval)
  {
    var o := obs[|obs| - 1];
    var before := obs[..|obs| - 1];
    var seen: seq<byte> := [];
    if before != [] {
      var last := obs[|obs| - 2];
      assert before[|before| - 1] == last && Growing(before);
      var k := TailerIsOnePass(before, tr, clock, interval);
      seen := last.content[..k];
      assert last.content == o.content[..|last.content|];
    } else {
      assert Pass([], tr, clock, interval) == START;
    }
    assert o.content == seen + o.content[|seen|..];
    m := PollAdvances(seen, o.content[|seen|..], o.len, tr, clock, interval);
  }

  /** The state a tailer that found its file shorter goes on from: it starts over, and forgets no event. */
  function StartOver(st: State): State {
    st.(offset := 0, links := map[])
  }

  /**
   A poll that finds the file shorter than the offset reads it from its start as a new one: offset and
   links are those of a pass over it, and its events come after those already published.
   */
  lemma ShorterFileStartsOver(st: State, content: seq<byte>, tr: Translator, clock: nat -> int, interval: nat)
    requires |content| < st.offset
    ensures var now := Poll(st, |content|, content, tr, clock, interval);
            && now.offset == Pass(content, tr, clock, interval).offset
            && now.links == Pass(content, tr, clock, interval).links
            && st.published <= now.published
            && NotVitals(now.published) ==
               NotVitals(st.published) + NotVitals(Pass(content, tr, clock, interval).published)
  {
    var lines := CompleteLines(content);
    assert content[0..] == content;
    if content == [] {
      assert Pass(content, tr, clock, interval) == START;
      assert NotVitals(st.published) + [] == NotVitals(st.published);
    } else {
      var step, before := Step(tr, clock, interval), st.published;
      forall x, y, line | Ahead(x, y, before) ensures Ahead(step(x, line), step(y, line), before) {
        AheadOnLine(x, y, line, tr, clock, interval, before);
      }
      FoldAhead(step, StartOver(st), START, lines, before);
    }
  }

  /** The two states have the same offset and links, and the first has published what the second has after `before`. */
  predicate Ahead(a: State, b: State, before: seq<(nat, Shown)>) {
    && a.offset == b.offset && a.links == b.links && before <= a.published
    && NotVitals(a.published) == NotVitals(before) + NotVitals(b.published)
  }

  lemma NoticesAfter(before: seq<(nat, Shown)>, notices: seq<(nat, Shown)>, end: nat, out: Option<Shown>)
    ensures NoticesOf(before + notices, end, out) == before + NoticesOf(notices, end, out)
  {
    if out.Some? {
      Reassociate(before, notices, [(end, out.value)]);
    }
  }

  lemma PublishedGrows(a: State, end: nat, out: (Links, Option<Shown>), now: int, interval: nat)
    ensures a.published <= Absorb(a, end, out, now, interval).published
    ensures Absorb(a, end, out, now, interval).offset == end && Absorb(a, end, out, now, interval).links == out.0
  {
  }

  lemma AheadAfter(a: State, b: State, end: nat, out: (Links, Option<Shown>), now: int, interval: nat,
                   before: seq<(nat, Shown)>)
    requires Ahead(a, b, before)
    ensures Ahead(Absorb(a, end, out, now, interval), Absorb(b, end, out, now, interval), before)
  {
    PublishedGrows(a, end, out, now, interval);
    PublishedGrows(b, end, out, now, interval);
    var x, y := Absorb(a, end, out, now, interval), Absorb(b, end, out, now, interval);
    assert NotVitals(x.published) == NotVitals(before) + NotVitals(y.published) by {
      AbsorbNotices(a, end, out, now, interval);
      AbsorbNotices(b, end, out, now, interval);
      NoticesAfter(NotVitals(before), NotVitals(b.published), end, out.1);
    }
  }

  lemma AheadOnLine(a: State, b: State, line: seq<byte>, tr: Translator, clock: nat -> int, interval: nat,
                    before: seq<(nat, Shown)>)
    requires Ahead(a, b, before)
    ensures Ahead(Consume(a, line, tr, clock, interval), Consume(b, line, tr, clock, interval), before)
  {
    var end, out := a.offset + |line|, tr(a.links, line);
    assert Consume(a, line, tr, clock, interval) == Absorb(a, end, out, clock(end), interval);
    assert Consume(b, line, tr, clock, interval) == Absorb(b, end, out, clock(end), interval);
    AheadAfter(a, b, end, out, clock(end), interval, before);
  }

  lemma {:induction false} FoldAhead(step: (State, seq<byte>) -> State, a: State, b: State, lines: seq<seq<byte>>,
                                     before: seq<(nat, Shown)>)
    requires Ahead(a, b, before)
    requires forall x, y, line :: Ahead(x, y, before) ==> Ahead(step(x, line), step(y, line), before)
    ensures Ahead(Fold(step, a, lines), Fold(step, b, lines), before)
    decreases |lines|
  {
    if lines != [] {
      FoldAhead(step, step(a, lines[0]), step(b, lines[0]), lines[1..], before);
    }
  }

  /** Everything up to and including the first newline, or nothing. */
  function ToNewline(bs: seq<byte>): (n: nat)
    ensures n <= |bs|
  {
    var i := Index(bs, NEWLINE);
    if i == |bs| then 0 else i + 1
  }

  /** The lines of a file that end in a newline, whatever is on them. */
  function TerminatedLines(file: seq<byte>): seq<seq<byte>> {
    Pieces(file, ToNewline)
  }

  predicate AllAre(lines: seq<seq<byte>>, text: seq<byte> -> bool) {
    forall i :: 0 <= i < |lines| ==> text(lines[i])
  }

  /** The offset is always a line boundary, and it is the last one if and only if every terminated line is UTF-8. */
  lemma OffsetIsBoundary(file: seq<byte>, tr: Translator, clock: nat -> int, interval: nat)
    ensures var n := Pass(file, tr, clock, interval).offset;
            && n <= |file|
            && Concat(CompleteLines(file)) == file[..n]
            && (n == 0 || file[n - 1] == NEWLINE)
            && (FirstLine(file[n..]) == 0)
            && (NEWLINE !in file[n..] <==> AllAre(TerminatedLines(file), IsText))
  {
    PassOffset(file, tr, clock, interval);
    FirstLineIsCut();
    PiecesPartition(file, FirstLine);
    PiecesEnd(file, FirstLine);
    FollowedToTheEndIff(file, FirstLine, IsText);
  }

  lemma {:induction false} FollowedToTheEndIff(file: seq<byte>, cut: seq<byte> -> nat, text: seq<byte> -> bool)
    requires forall bs :: cut(bs) == if ToNewline(bs) > 0 && text(bs[..ToNewline(bs)]) then ToNewline(bs) else 0
    ensures NEWLINE !in file[PiecesLength(file, cut)..] <==> AllAre(TerminatedLines(file), text)
    decreases |file|
  {
    var k := ToNewline(file);
    assert file[0..] == file;
    if k > 0 {
      var line, rest := file[..k], file[k..];
      PiecesCons(file, k, ToNewline);
      AllAreCons(line, TerminatedLines(rest), text);
      if text(line) {
        PiecesCons(file, k, cut);
        TwoCuts(file, k, PiecesLength(rest, cut));
        FollowedToTheEndIff(rest, cut, text);
      } else {
        assert PiecesLength(file, cut) == 0 && file[k - 1] == NEWLINE;
      }
    }
  }

  lemma AllAreCons(line: seq<byte>, rest: seq<seq<byte>>, text: seq<byte> -> bool)
    ensures AllAre([line] + rest, text) <==> text(line) && AllAre(rest, text)
  {
    var all := [line] + rest;
    assert all[0] == line && forall i :: 0 <= i < |rest| ==> rest[i] == all[i + 1];
  }

  /** A terminated line that is not UTF-8, after a part of the file that was followed to its end. */
  ghost predicate Blocks(good: seq<byte>, bad: seq<byte>) {
    && PiecesLength(good, FirstLine) == |good|
    && bad != [] && Index(bad, NEWLINE) == |bad| - 1 && !IsText(bad)
  }

  lemma NothingMoreCut(good: seq<byte>, rest: seq<byte>, cut: seq<byte> -> nat)
    requires IsCut(cut) && PiecesLength(good, cut) == |good| && cut(rest) == 0
    ensures Pieces(good + rest, cut) == Pieces(good, cut)
  {
    Resume(good, rest, cut);
    assert good[|good|..] + rest == rest;
  }

  lemma BadLineBlocks(good: seq<byte>, bad: seq<byte>, file: seq<byte>)
    requires Blocks(good, bad) && good + bad <= file
    ensures CompleteLines(file) == CompleteLines(good)
  {
    var more := file[|good + bad|..];
    assert file == good + (bad + more);
    assert FirstLine(bad + more) == 0 by {
      IndexAppend(bad, more);
      assert (bad + more)[..|bad|] == bad;
    }
    FirstLineIsCut();
    NothingMoreCut(good, bad + more, FirstLine);
  }

  /** One such line stops the tailer for ever: however the file grows, its state stays as it was before the line. */
  lemma BadLineStops(obs: seq<Observation>, good: seq<byte>, bad: seq<byte>, tr: Translator, clock: nat -> int,
                     interval: nat)
    requires obs != [] && Growing(obs) && Blocks(good, bad)
    requires var o := obs[|obs| - 1]; |good + bad| <= o.len && good + bad <= o.content
    ensures Polls(obs, tr, clock, interval) == Pass(good, tr, clock, interval)
  {
    var o := obs[|obs| - 1];
    var m := TailerIsOnePass(obs, tr, clock, interval);
    BadLineBlocks(good, bad, o.content[..m]);
  }

  lemma {:induction false} PiecesEnd(file: seq<byte>, cut: seq<byte> -> nat)
    requires forall bs :: cut(bs) <= |bs| && (cut(bs) > 0 ==> bs[cut(bs) - 1] == NEWLINE)
    ensures var n := PiecesLength(file, cut); n == 0 || file[n - 1] == NEWLINE
    decreases |file|
  {
    var k := cut(file);
    if k > 0 {
      PiecesEnd(file[k..], cut);
      var n := PiecesLength(file[k..], cut);
      assert n > 0 ==> file[k..][n - 1] == file[k + n - 1];
    }
  }

  // ── What is published ──────────────────────────────────────────────────────

  /** Sequence numbers increase strictly and never pass the offset. */
  ghost predicate Ordered(st: State) {
    && (forall i, j :: 0 <= i < j < |st.published| ==> st.published[i].0 < st.published[j].0)
    && forall i :: 0 <= i < |st.published| ==> st.published[i].0 <= st.offset
  }

  lemma {:induction false} PublishedOrdered(step: (State, seq<byte>) -> State, st: State, lines: seq<seq<byte>>,
                                            tr: Translator, clock: nat -> int, interval: nat)
    requires step == Step(tr, clock, interval) && Ordered(st)
    requires forall i :: 0 <= i < |lines| ==> lines[i] != []
    ensures Ordered(Fold(step, st, lines))
    decreases |lines|
  {
    if lines != [] {
      assert Ordered(step(st, lines[0]));
      PublishedOrdered(step, step(st, lines[0]), lines[1..], tr, clock, interval);
    }
  }

  lemma {:induction false} PiecesNonEmpty(bs: seq<byte>, cut: seq<byte> -> nat)
    ensures forall i :: 0 <= i < |Pieces(bs, cut)| ==> Pieces(bs, cut)[i] != []
    decreases |bs|
  {
    var n := cut(bs);
    if 0 < n <= |bs| {
      PiecesNonEmpty(bs[n..], cut);
    }
  }

  lemma PassIsOrdered(file: seq<byte>, tr: Translator, clock: nat -> int, interval: nat)
    ensures Ordered(Pass(file, tr, clock, interval))
  {
    PiecesNonEmpty(file, FirstLine);
    PublishedOrdered(Step(tr, clock, interval), START, CompleteLines(file), tr, clock, interval);
  }

  function NotVitals(p: seq<(nat, Shown)>): seq<(nat, Shown)> {
    if p == [] then []
    else
      var last := p[|p| - 1];
      NotVitals(p[..|p| - 1]) + if IsVitals(last.1) then [] else [last]
  }

  /** Everything but the throttle and the vitals it lets through. */
  predicate SameButVitals(a: State, b: State) {
    a.offset == b.offset && a.links == b.links && NotVitals(a.published) == NotVitals(b.published)
  }

  lemma NotVitalsSnoc(p: seq<(nat, Shown)>, x: (nat, Shown))
    ensures NotVitals(p + [x]) == NotVitals(p) + if IsVitals(x.1) then [] else [x]
  {
    assert (p + [x])[..|p|] == p;
  }

  lemma PublishSame(a: State, b: State, shown: Shown, s: int, t: int, interval: nat)
    requires SameButVitals(a, b)
    ensures SameButVitals(Publish(a, shown, s, interval), Publish(b, shown, t, interval))
  {
    NotVitalsSnoc(a.published, (a.offset, shown));
    NotVitalsSnoc(b.published, (b.offset, shown));
    assert IsVitals(shown) ==> NotVitals(a.published) + [] == NotVitals(a.published);
    assert IsVitals(shown) ==> NotVitals(b.published) + [] == NotVitals(b.published);
  }

  lemma AbsorbSame(a: State, b: State, end: nat, out: (Links, Option<Shown>), s: int, t: int, interval: nat)
    requires SameButVitals(a, b)
    ensures SameButVitals(Absorb(a, end, out, s, interval), Absorb(b, end, out, t, interval))
  {
    if out.1.Some? {
      PublishSame(a.(offset := end, links := out.0), b.(offset := end, links := out.0), out.1.value, s, t, interval);
    }
  }

  lemma ConsumeSame(a: State, b: State, line: seq<byte>, tr: Translator, c: nat -> int, d: nat -> int, interval: nat)
    requires SameButVitals(a, b)
    ensures SameButVitals(Consume(a, line, tr, c, interval), Consume(b, line, tr, d, interval))
  {
    var end, out := a.offset + |line|, tr(a.links, line);
    assert Consume(a, line, tr, c, interval) == Absorb(a, end, out, c(end), interval);
    assert Consume(b, line, tr, d, interval) == Absorb(b, end, out, d(end), interval);
    AbsorbSame(a, b, end, out, c(end), d(end), interval);
  }

  lemma {:induction false} FoldSame(f: (State, seq<byte>) -> State, g: (State, seq<byte>) -> State, a: State, b: State,
                                    lines: seq<seq<byte>>)
    requires SameButVitals(a, b)
    requires forall x, y, line :: SameButVitals(x, y) ==> SameButVitals(f(x, line), g(y, line))
    ensures SameButVitals(Fold(f, a, lines), Fold(g, b, lines))
    decreases |lines|
  {
    if lines != [] {
      FoldSame(f, g, f(a, lines[0]), g(b, lines[0]), lines[1..]);
    }
  }

  /** Two tailers of one file, polling at different times, publish the same but for vitals. */
  lemma TimingOnlyAffectsVitals(file: seq<byte>, tr: Translator, c: nat -> int, d: nat -> int, interval: nat)
    ensures SameButVitals(Pass(file, tr, c, interval), Pass(file, tr, d, interval))
  {
    var f, g := Step(tr, c, interval), Step(tr, d, interval);
    forall x, y, line | SameButVitals(x, y) ensures SameButVitals(f(x, line), g(y, line)) {
      ConsumeSame(x, y, line, tr, c, d, interval);
    }
    FoldSame(f, g, START, START, CompleteLines(file));
  }

  /** The correlation action on a line; a line that is no entry is ignored. */
  function ActionOnLine(line: seq<byte>): Action {
    match EntryOnLine(line) case None => Ignored case Some(e) => ActionOf(e)
  }

  function Actions(lines: seq<seq<byte>>, act: seq<byte> -> Action): seq<Action> {
    seq(|lines|, i requires 0 <= i < |lines| => act(lines[i]))
  }

  /** A translator whose links follow the correlation map. */
  ghost predicate Follows(tr: Translator, act: seq<byte> -> Action) {
    forall links, line {:trigger Apply(links, act(line))} :: tr(links, line).0 == Apply(links, act(line))
  }

  lemma TranslatedLineFollows()
    ensures Follows(TranslatedLine, ActionOnLine)
  {
  }

  lemma FoldSnoc<S>(step: (S, seq<byte>) -> S, s: S, lines: seq<seq<byte>>, l: seq<byte>)
    ensures Fold(step, s, lines + [l]) == step(Fold(step, s, lines), l)
  {
    FoldAppend(step, s, lines, [l]);
  }

  lemma TrackedOneMore(p: seq<seq<byte>>, l: seq<byte>, act: seq<byte> -> Action)
    ensures Tracked(Actions(p + [l], act)) == Apply(Tracked(Actions(p, act)), act(l))
  {
    assert Actions(p + [l], act) == Actions(p, act) + [act(l)];
    TrackedSnoc(Actions(p, act), act(l));
  }

  lemma LinksOneMore(p: seq<seq<byte>>, l: seq<byte>, tr: Translator, clock: nat -> int, interval: nat, links: Links)
    requires Fold(Step(tr, clock, interval), START, p).links == links
    ensures Fold(Step(tr, clock, interval), START, p + [l]).links == tr(links, l).0
  {
    FoldSnoc(Step(tr, clock, interval), START, p, l);
  }

  /** The tailer's links are those of the history of all complete lines. */
  lemma {:induction false} LinksAreTracked(lines: seq<seq<byte>>, tr: Translator, act: seq<byte> -> Action,
                                           clock: nat -> int, interval: nat)
    requires Follows(tr, act)
    ensures Fold(Step(tr, clock, interval), START, lines).links == Tracked(Actions(lines, act))
    decreases |lines|
  {
    if lines != [] {
      var p, l := lines[..|lines| - 1], lines[|lines| - 1];
      assert lines == p + [l];
      LinksAreTracked(p, tr, act, clock, interval);
      LinksOneMore(p, l, tr, clock, interval, Tracked(Actions(p, act)));
      TrackedOneMore(p, l, act);
    }
  }

  /** Where a published event comes from: a line, seen through the links of the lines before it. */
  ghost predicate ComesFrom(p: (nat, Shown), i: nat, lines: seq<seq<byte>>, tr: Translator, act: seq<byte> -> Action) {
    && i < |lines|
    && p.0 == |Concat(lines[..i + 1])|
    && tr(Tracked(Actions(lines[..i], act)), lines[i]).1 == Some(p.1)
  }

  lemma {:induction false} FoldOffsetFlat(lines: seq<seq<byte>>, tr: Translator, clock: nat -> int, interval: nat)
    ensures Fold(Step(tr, clock, interval), START, lines).offset == |Concat(lines)|
    decreases |lines|
  {
    if lines != [] {
      var p, l := lines[..|lines| - 1], lines[|lines| - 1];
      assert lines == p + [l];
      FoldOffsetFlat(p, tr, clock, interval);
      FoldSnoc(Step(tr, clock, interval), START, p, l);
      ConcatSnoc(p, l);
    }
  }

  lemma AbsorbPublishes(st: State, end: nat, out: (Links, Option<Shown>), now: int, interval: nat)
    ensures var p := Absorb(st, end, out, now, interval).published;
            p == st.published || (out.1.Some? && p == st.published + [(end, out.1.value)])
  {
  }

  lemma ComesFromExtends(x: (nat, Shown), i: nat, p: seq<seq<byte>>, l: seq<byte>, tr: Translator,
                         act: seq<byte> -> Action)
    requires ComesFrom(x, i, p, tr, act)
    ensures ComesFrom(x, i, p + [l], tr, act)
  {
    assert (p + [l])[..i + 1] == p[..i + 1] && (p + [l])[..i] == p[..i];
  }

  lemma NewestComesFrom(x: (nat, Shown), p: seq<seq<byte>>, l: seq<byte>, tr: Translator, act: seq<byte> -> Action)
    requires x.0 == |Concat(p)| + |l| && tr(Tracked(Actions(p, act)), l).1 == Some(x.1)
    ensures ComesFrom(x, |p|, p + [l], tr, act)
  {
    ConcatSnoc(p, l);
    assert (p + [l])[..|p| + 1] == p + [l] && (p + [l])[..|p|] == p;
  }

  lemma StepIs(st: State, l: seq<byte>, tr: Translator, clock: nat -> int, interval: nat, links: Links, n: nat)
    requires st.links == links && st.offset == n
    ensures Step(tr, clock, interval)(st, l) == Absorb(st, n + |l|, tr(links, l), clock(n + |l|), interval)
  {
  }

  /** One more line. */
  lemma LineStep(lines: seq<seq<byte>>, l: seq<byte>, tr: Translator, clock: nat -> int, interval: nat, links: Links,
                 end: nat)
    requires Fold(Step(tr, clock, interval), START, lines).links == links
    requires Fold(Step(tr, clock, interval), START, lines).offset + |l| == end
    ensures var step := Step(tr, clock, interval);
            Fold(step, START, lines + [l]) == Absorb(Fold(step, START, lines), end, tr(links, l), clock(end), interval)
  {
    var st := Fold(Step(tr, clock, interval), START, lines);
    FoldSnoc(Step(tr, clock, interval), START, lines, l);
    StepIs(st, l, tr, clock, interval, links, st.offset);
  }

  /** Every published event is the one its line gives under the links of the whole history before it. */
  lemma {:induction false} PublishedComesFromHistory(lines: seq<seq<byte>>, k: nat, tr: Translator,
                                                     act: seq<byte> -> Action, clock: nat -> int, interval: nat)
    returns (i: nat)
    requires Follows(tr, act)
    requires k < |Fold(Step(tr, clock, interval), START, lines).published|
    ensures ComesFrom(Fold(Step(tr, clock, interval), START, lines).published[k], i, lines, tr, act)
    decreases |lines|
  {
    var p, l := lines[..|lines| - 1], lines[|lines| - 1];
    assert lines == p + [l];
    var links, end := Tracked(Actions(p, act)), |Concat(p)| + |l|;
    LinksAreTracked(p, tr, act, clock, interval);
    FoldOffsetFlat(p, tr, clock, interval);
    LineStep(p, l, tr, clock, interval, links, end);
    var st := Fold(Step(tr, clock, interval), START, p);
    AbsorbPublishes(st, end, tr(links, l), clock(end), interval);
    if k < |st.published| {
      i := PublishedComesFromHistory(p, k, tr, act, clock, interval);
      ComesFromExtends(st.published[k], i, p, l, tr, act);
    } else {
      i := |p|;
      NewestComesFrom(Fold(Step(tr, clock, interval), START, lines).published[k], p, l, tr, act);
    }
  }

  // ── The real translator on a growing file ──────────────────────────────────

  /** The event of an entry after some lines, stamped from their history. */
  function StampedEvent(lines: seq<seq<byte>>, e: Entry): Shown {
    WithMessage(EventOf(e), Stamp(Tracked(Actions(lines, ActionOnLine)), ActionOf(e)))
  }

  lemma ShownIsStamped(lines: seq<seq<byte>>, line: seq<byte>, shown: Shown) returns (e: Entry)
    requires TranslatedLine(Tracked(Actions(lines, ActionOnLine)), line).1 == Some(shown)
    ensures EntryOnLine(line) == Some(e) && shown == StampedEvent(lines, e)
  {
    e := EntryOnLine(line).value;
  }

  /**
   A file followed at any growth points: every published event is that of one of its lines, at the
   line's end offset, and carries a message id only if the history before the line gives the entry's
   task that message; when no link had to be dropped, it carries exactly that.
   */
  lemma FollowedFileIsStamped(obs: seq<Observation>, clock: nat -> int, interval: nat, k: nat)
    returns (m: nat, i: nat, e: Entry)
    requires obs != [] && Growing(obs)
    requires k < |Polls(obs, TranslatedLine, clock, interval).published|
    ensures m <= |obs[|obs| - 1].content|
    ensures var lines := CompleteLines(obs[|obs| - 1].content[..m]);
            var (end, shown) := Polls(obs, TranslatedLine, clock, interval).published[k];
            && i < |lines| && end == |Concat(lines[..i + 1])|
            && EntryOnLine(lines[i]) == Some(e) && shown == StampedEvent(lines[..i], e)
            && var h := Actions(lines[..i], ActionOnLine);
               var id := Stamp(Tracked(h), ActionOf(e));
               && (id.Some? ==> TaskOf(ActionOf(e)).Some? && Current(h, TaskOf(ActionOf(e)).value) == id)
               && (AlwaysRoom(h) && TaskOf(ActionOf(e)).Some? ==> Current(h, TaskOf(ActionOf(e)).value) == id)
  {
    m := TailerIsOnePass(obs, TranslatedLine, clock, interval);
    var lines := CompleteLines(obs[|obs| - 1].content[..m]);
    TranslatedLineFollows();
    i := PublishedComesFromHistory(lines, k, TranslatedLine, ActionOnLine, clock, interval);
    e := ShownIsStamped(lines[..i], lines[i], Polls(obs, TranslatedLine, clock, interval).published[k].1);
    var h := Actions(lines[..i], ActionOnLine);
    StampIsSound(h, ActionOf(e));
    if AlwaysRoom(h) && TaskOf(ActionOf(e)).Some? {
      StampIsExact(h, ActionOf(e));
    }
  }

  // ── Exactly what is published ──────────────────────────────────────────────

  /** The links of the history of some lines. */
  function HistoryLinks(act: seq<byte> -> Action): seq<seq<byte>> -> Links {
    p => Tracked(Actions(p, act))
  }

  /** The end offset and event of every line that shows one other than vitals, under the links before it. */
  function Notices(lines: seq<seq<byte>>, tr: Translator, links: seq<seq<byte>> -> Links): seq<(nat, Shown)> {
    if lines == [] then []
    else
      var p, l := lines[..|lines| - 1], lines[|lines| - 1];
      NoticesOf(Notices(p, tr, links), |Concat(p)| + |l|, tr(links(p), l).1)
  }

  function NoticesOf(before: seq<(nat, Shown)>, end: nat, out: Option<Shown>): seq<(nat, Shown)> {
    if out.Some? && !IsVitals(out.value) then before + [(end, out.value)] else before
  }

  lemma AbsorbNotices(st: State, end: nat, out: (Links, Option<Shown>), now: int, interval: nat)
    ensures NotVitals(Absorb(st, end, out, now, interval).published) == NoticesOf(NotVitals(st.published), end, out.1)
  {
    if out.1.Some? {
      NotVitalsSnoc(st.published, (end, out.1.value));
      assert NotVitals(st.published) + [] == NotVitals(st.published);
    }
  }

  lemma PublishStep(p: seq<seq<byte>>, l: seq<byte>, tr: Translator, clock: nat -> int, interval: nat, links: Links,
                    end: nat, notices: seq<(nat, Shown)>)
    requires var st := Fold(Step(tr, clock, interval), START, p);
             st.links == links && st.offset + |l| == end && NotVitals(st.published) == notices
    ensures NotVitals(Fold(Step(tr, clock, interval), START, p + [l]).published) ==
            NoticesOf(notices, end, tr(links, l).1)
  {
    LineStep(p, l, tr, clock, interval, links, end);
    AbsorbNotices(Fold(Step(tr, clock, interval), START, p), end, tr(links, l), clock(end), interval);
  }

  /** A pass keeps the given links after every prefix. */
  ghost predicate Keeps(lines: seq<seq<byte>>, tr: Translator, links: seq<seq<byte>> -> Links, clock: nat -> int,
                        interval: nat)
  {
    forall n :: 0 <= n <= |lines| ==> Fold(Step(tr, clock, interval), START, lines[..n]).links == links(lines[..n])
  }

  /** Apart from vitals, exactly the events of the complete lines are published, each at its line's end. */
  lemma {:induction false} PublishedExactly(lines: seq<seq<byte>>, tr: Translator, links: seq<seq<byte>> -> Links,
                                            clock: nat -> int, interval: nat)
    requires Keeps(lines, tr, links, clock, interval)
    ensures NotVitals(Fold(Step(tr, clock, interval), START, lines).published) == Notices(lines, tr, links)
    decreases |lines|
  {
    if lines != [] {
      var n := |lines| - 1;
      var p, l := lines[..n], lines[n];
      assert forall k :: 0 <= k <= n ==> p[..k] == lines[..k];
      PublishedExactly(p, tr, links, clock, interval);
      FoldOffsetFlat(p, tr, clock, interval);
      PublishStep(p, l, tr, clock, interval, links(p), |Concat(p)| + |l|, Notices(p, tr, links));
      assert lines == p + [l];
    }
  }

  /** The vitals let through are at least the interval apart, and the last of them set the throttle. */
  ghost predicate Throttled(st: State, clock: nat -> int, interval: nat) {
    && (forall i :: 0 <= i < |st.published| && IsVitals(st.published[i].1) ==>
          st.lastVitals.Some? && clock(st.published[i].0) <= st.lastVitals.value)
    && (forall i, j :: 0 <= i < j < |st.published| && IsVitals(st.published[i].1) && IsVitals(st.published[j].1) ==>
          clock(st.published[j].0) - clock(st.published[i].0) >= interval)
  }

  lemma AbsorbThrottles(st: State, end: nat, out: (Links, Option<Shown>), clock: nat -> int, interval: nat)
    requires Throttled(st, clock, interval)
    ensures Throttled(Absorb(st, end, out, clock(end), interval), clock, interval)
  {
  }

  /** Whatever the clock, vitals are published at least the interval apart. */
  lemma {:induction false} VitalsAreThrottled(st: State, lines: seq<seq<byte>>, tr: Translator, clock: nat -> int,
                                              interval: nat)
    requires Throttled(st, clock, interval)
    ensures Throttled(Fold(Step(tr, clock, interval), st, lines), clock, interval)
    decreases |lines|
  {
    if lines != [] {
      var end := st.offset + |lines[0]|;
      AbsorbThrottles(st, end, tr(st.links, lines[0]), clock, interval);
      VitalsAreThrottled(Consume(st, lines[0], tr, clock, interval), lines[1..], tr, clock, interval);
    }
  }

  /**
   A file followed at any growth points: apart from vitals exactly the events of its complete lines
   are published, in order, and vitals at least the interval apart.
   */
  lemma FollowedFileIsPublished(obs: seq<Observation>, clock: nat -> int, interval: nat) returns (m: nat)
    requires obs != [] && Growing(obs)
    ensures obs[|obs| - 1].len <= m <= |obs[|obs| - 1].content|
    ensures var st, lines := Polls(obs, TranslatedLine, clock, interval), CompleteLines(obs[|obs| - 1].content[..m]);
            && NotVitals(st.published) == Notices(lines, TranslatedLine, HistoryLinks(ActionOnLine))
            && Throttled(st, clock, interval)
  {
    m := TailerIsOnePass(obs, TranslatedLine, clock, interval);
    var lines := CompleteLines(obs[|obs| - 1].content[..m]);
    TranslatedLineFollows();
    forall n | 0 <= n <= |lines|
      ensures Fold(Step(TranslatedLine, clock, interval), START, lines[..n]).links ==
              HistoryLinks(ActionOnLine)(lines[..n])
    {
      LinksAreTracked(lines[..n], TranslatedLine, ActionOnLine, clock, interval);
    }
    PublishedExactly(lines, TranslatedLine, HistoryLinks(ActionOnLine), clock, interval);
    VitalsAreThrottled(START, lines, TranslatedLine, clock, interval);
  }
}
