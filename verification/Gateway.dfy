/**
 The channel gateway: adapters polled in turn, at most fifty messages each, every message checked and
 offered to the sensory bridge, with or without routing by modality.
 */
module Gateway {
  import opened Text
  import opened Priorities

  const BATCH: nat := 50

  datatype Modality = TextModality | ImageModality | VoiceModality

  datatype Content =
    | TextBody(text: string)
    | Image(bytes: seq<int>, mime: string, caption: Option<string>)
    | Voice(samples: seq<int>)
  {
    function Modality(): Modality {
      match this case TextBody(_) => TextModality case Image(_, _, _) => ImageModality case Voice(_) => VoiceModality
    }
  }

  datatype Message = Message(from: string, content: Content)

  datatype Packet = Packet(content: Content, priority: Priority)

  /** What the bridge's own policy says of a packet. */
  datatype Verdict = Accepted | PolicyViolation(reason: string) | InvalidInput

  /** Why a message was turned away; the gateway renders it as a sentence. */
  datatype Reason =
    | ImageTooLarge(size: nat, limit: nat)
    | VoiceTooLong(length: nat, limit: nat)
    | AgainstPolicy(reason: string)
    | NotValid

  datatype Config = Config(
    textPriority: Priority, imagePriority: Priority, voicePriority: Priority,
    maxImageBytes: nat, maxPcmSamples: nat)

  datatype Outcome = Outcome(
    channel: string, from: string, modality: Modality, enqueued: bool, rejection: Option<Reason>)

  /** The gateway's own limits. */
  function TooLarge(config: Config, c: Content): Option<Reason> {
    match c
    case Image(bytes, _, _) =>
      if |bytes| > config.maxImageBytes then Some(ImageTooLarge(|bytes|, config.maxImageBytes)) else None
    case Voice(samples) =>
      if |samples| > config.maxPcmSamples then Some(VoiceTooLong(|samples|, config.maxPcmSamples)) else None
    case TextBody(_) => None
  }

  function PacketOf(config: Config, c: Content): Packet {
    match c
    case TextBody(_) => Packet(c, config.textPriority)
    case Image(_, _, _) => Packet(c, config.imagePriority)
    case Voice(_) => Packet(c, config.voicePriority)
  }

  /** Why a message does not enter the bridge, if it does not. */
  function Rejection(config: Config, policy: Packet -> Verdict, c: Content): Option<Reason> {
    match TooLarge(config, c)
    case Some(reason) => Some(reason)
    case None =>
      match policy(PacketOf(config, c))
      case Accepted => None
      case PolicyViolation(reason) => Some(AgainstPolicy(reason))
      case InvalidInput => Some(NotValid)
  }

  /** The packet a message becomes, if it enters the bridge. */
  function Admitted(config: Config, policy: Packet -> Verdict, m: Message): Option<Packet> {
    if Rejection(config, policy, m.content).None? then Some(PacketOf(config, m.content)) else None
  }

  function Offered(bridge: seq<Packet>, p: Option<Packet>): seq<Packet> {
    match p case Some(packet) => bridge + [packet] case None => bridge
  }

  function OutcomeOf(config: Config, policy: Packet -> Verdict, channel: string, m: Message): Outcome {
    var rejection := Rejection(config, policy, m.content);
    Outcome(channel, m.from, m.content.Modality(), rejection.None?, rejection)
  }

  // ── Routing by modality ────────────────────────────────────────────────────

  datatype Capability = Capability(vision: bool, stt: bool)

  datatype Transcription = Heard(text: string) | Failed(error: string)

  /** Why a modality is not served; the router renders it as a sentence. */
  datatype Why = NoVisionNoCaption | NoSpeechToText | SpeechToTextFailed(error: string)

  datatype Decision =
    | Routed(modality: Modality)
    | RoutedFallback(original: Modality, text: string)
    | RoutedViaStt(transcript: string)
    | Unsupported(unserved: Modality, why: Why)

  datatype AuditKind = Received | NotServed

  datatype Audit = Audit(kind: AuditKind, channel: string, peer: string, modality: Modality)

  datatype RoutedOutcome = RoutedOutcome(decision: Decision, audit: Audit, poll: Option<Outcome>)

  /** `route_inbound` */
  function Route(c: Content, caps: Capability, stt: seq<int> -> Transcription): Decision {
    match c
    case TextBody(_) => Routed(TextModality)
    case Image(_, _, caption) =>
      if caps.vision then Routed(ImageModality)
      else if caption.Some? && caption.value != "" then RoutedFallback(ImageModality, caption.value)
      else Unsupported(ImageModality, NoVisionNoCaption)
    case Voice(samples) =>
      if !caps.stt then Unsupported(VoiceModality, NoSpeechToText)
      else
        match stt(samples)
        case Heard(text) => RoutedViaStt(text)
        case Failed(error) => Unsupported(VoiceModality, SpeechToTextFailed(error))
  }

  /** `inbound_audit` */
  function AuditOf(channel: string, from: string, d: Decision): Audit {
    match d
    case Routed(m) => Audit(Received, channel, from, m)
    case RoutedFallback(_, _) => Audit(Received, channel, from, TextModality)
    case RoutedViaStt(_) => Audit(Received, channel, from, TextModality)
    case Unsupported(m, _) => Audit(NotServed, channel, "", m)
  }

  // ── What one poll does ─────────────────────────────────────────────────────

  function Taken(q: seq<Message>): nat {
    if |q| <= BATCH then |q| else BATCH
  }

  /** The packets of those of the first `k` messages that `admit` lets in, in order. */
  function Packets(admit: Message -> Option<Packet>, ms: seq<Message>, k: nat): seq<Packet>
    requires k <= |ms|
  {
    if k == 0 then [] else Offered(Packets(admit, ms, k - 1), admit(ms[k - 1]))
  }

  /** One outcome for each of the first `k` messages. */
  function Reports<O>(report: Message -> O, ms: seq<Message>, k: nat): (os: seq<O>)
    requires k <= |ms|
    ensures |os| == k
  {
    if k == 0 then [] else Reports(report, ms, k - 1) + [report(ms[k - 1])]
  }

  /** The message that is ingested in place of a routed one. */
  function Effective(m: Message, caps: Capability, stt: seq<int> -> Transcription): Option<Message> {
    match Route(m.content, caps, stt)
    case Routed(_) => Some(m)
    case RoutedFallback(_, text) => Some(Message(m.from, TextBody(text)))
    case RoutedViaStt(text) => Some(Message(m.from, TextBody(text)))
    case Unsupported(_, _) => None
  }

  function RoutedOf(config: Config, policy: Packet -> Verdict, channel: string, m: Message, caps: Capability,
                    stt: seq<int> -> Transcription): RoutedOutcome
  {
    var d := Route(m.content, caps, stt);
    RoutedOutcome(d, AuditOf(channel, m.from, d),
                  match Effective(m, caps, stt)
                  case Some(e) => Some(OutcomeOf(config, policy, channel, e))
                  case None => None)
  }

  /** Plain and routed ingestion, as functions of a message. */
  function Plain(config: Config, policy: Packet -> Verdict): Message -> Option<Packet> {
    m => Admitted(config, policy, m)
  }

  function PlainReport(config: Config, policy: Packet -> Verdict, channel: string): Message -> Outcome {
    m => OutcomeOf(config, policy, channel, m)
  }

  function ByRoute(config: Config, policy: Packet -> Verdict, caps: Capability, stt: seq<int> -> Transcription)
    : Message -> Option<Packet>
  {
    m => match Effective(m, caps, stt) case Some(e) => Admitted(config, policy, e) case None => None
  }

  function RouteReport(config: Config, policy: Packet -> Verdict, channel: string, caps: Capability,
                       stt: seq<int> -> Transcription): Message -> RoutedOutcome
  {
    m => RoutedOf(config, policy, channel, m, caps, stt)
  }

  function PlainReports(config: Config, policy: Packet -> Verdict): string -> Message -> Outcome {
    channel => PlainReport(config, policy, channel)
  }

  function RouteReports(config: Config, policy: Packet -> Verdict, caps: Capability, stt: seq<int> -> Transcription)
    : string -> Message -> RoutedOutcome
  {
    channel => RouteReport(config, policy, channel, caps, stt)
  }

  /** What one poll of the first `k` adapters puts into the bridge. */
  function BatchPackets(admit: Message -> Option<Packet>, queues: seq<seq<Message>>, k: nat): seq<Packet>
    requires k <= |queues|
  {
    if k == 0 then []
    else BatchPackets(admit, queues, k - 1) + Packets(admit, queues[k - 1], Taken(queues[k - 1]))
  }

  /** The outcomes of the messages they hand over, each reported for its own channel. */
  function BatchReports<O>(report: string -> Message -> O, ids: seq<string>, queues: seq<seq<Message>>, k: nat): seq<O>
    requires k <= |queues| == |ids|
  {
    if k == 0 then []
    else BatchReports(report, ids, queues, k - 1) + Reports(report(ids[k - 1]), queues[k - 1], Taken(queues[k - 1]))
  }

  /** `queues` waited at the adapters, and the first `i` adapters have had their turn since. */
  ghost predicate Turn(queues: seq<seq<Message>>, now: seq<seq<Message>>, i: nat) {
    && |now| == |queues|
    && forall j :: 0 <= j < |queues| ==> now[j] == if j < i then queues[j][Taken(queues[j])..] else queues[j]
  }

  class ChannelGateway {
    const ids: seq<string>
    const config: Config
    const policy: Packet -> Verdict
    /** What waits at each adapter. */
    var queues: seq<seq<Message>>
    var bridge: seq<Packet>

    ghost predicate Valid()
      reads this`queues
    {
      |ids| == |queues|
    }

    constructor (ids: seq<string>, queues: seq<seq<Message>>, config: Config, policy: Packet -> Verdict)
      requires |ids| == |queues|
      ensures Valid() && this.ids == ids && this.config == config && this.policy == policy
      ensures this.queues == queues && bridge == []
    {
      this.ids, this.config, this.policy, this.queues, bridge := ids, config, policy, queues, [];
    }

    /** `FixtureQueue::pop` */
    method Receive(i: nat) returns (m: Option<Message>)
      requires i < |queues|
      modifies this`queues
      ensures m == if old(queues)[i] == [] then None else Some(old(queues)[i][0])
      ensures queues == if m.None? then old(queues) else old(queues)[i := old(queues)[i][1..]]
    {
      if queues[i] == [] {
        return None;
      }
      m := Some(queues[i][0]);
      queues := queues[i := queues[i][1..]];
    }

    /** `ingest` */
    method Ingest(channel: string, m: Message) returns (o: Outcome)
      modifies this`bridge
      ensures bridge == Offered(old(bridge), Plain(config, policy)(m))
      ensures o == PlainReport(config, policy, channel)(m)
    {
      var large := TooLarge(config, m.content);
      if large.Some? {
        return Outcome(channel, m.from, m.content.Modality(), false, large);
      }
      var packet := PacketOf(config, m.content);
      match policy(packet)
      case Accepted =>
        bridge := bridge + [packet];
        return Outcome(channel, m.from, m.content.Modality(), true, None);
      case PolicyViolation(reason) =>
        return Outcome(channel, m.from, m.content.Modality(), false, Some(AgainstPolicy(reason)));
      case InvalidInput => return Outcome(channel, m.from, m.content.Modality(), false, Some(NotValid));
    }

    /** `ingest_routed` */
    method IngestRouted(channel: string, m: Message, caps: Capability, stt: seq<int> -> Transcription)
      returns (o: RoutedOutcome)
      modifies this`bridge
      ensures bridge == Offered(old(bridge), ByRoute(config, policy, caps, stt)(m))
      ensures o == RouteReport(config, policy, channel, caps, stt)(m)
    {
      var d := Route(m.content, caps, stt);
      var audit := AuditOf(channel, m.from, d);
      match d
      case Routed(_) =>
        var poll := Ingest(channel, m);
        return RoutedOutcome(d, audit, Some(poll));
      case RoutedFallback(_, text) =>
        var poll := Ingest(channel, Message(m.from, TextBody(text)));
        return RoutedOutcome(d, audit, Some(poll));
      case RoutedViaStt(text) =>
        var poll := Ingest(channel, Message(m.from, TextBody(text)));
        return RoutedOutcome(d, audit, Some(poll));
      case Unsupported(_, _) => return RoutedOutcome(d, audit, None);
    }

    /** One adapter's turn in `run_once`. */
    method PollAdapter(i: nat) returns (outcomes: seq<Outcome>)
      requires Valid() && i < |ids|
      modifies this`bridge, this`queues
      ensures var q, id := old(queues)[i], ids[i];
              && queues == old(queues)[i := q[Taken(q)..]]
              && bridge == old(bridge) + Packets(Plain(config, policy), q, Taken(q))
              && outcomes == Reports(PlainReport(config, policy, id), q, Taken(q))
    {
      outcomes := [];
      var id := ids[i];
      ghost var q, admit, report := queues[i], Plain(config, policy), PlainReport(config, policy, id);
      var count := 0;
      ghost var qs, start := queues, bridge;
      assert start + [] == start && qs[i := q[0..]] == qs;
      while true
        invariant count <= Taken(q) && count < BATCH && queues == qs[i := q[count..]]
        invariant bridge == start + Packets(admit, q, count)
        invariant outcomes == Reports(report, q, count)
        decreases |q| - count
      {
        var m := Receive(i);
        if m.None? {
          break;
        }
        var o := Ingest(id, m.value);
        assert q[count..][1..] == q[count + 1..];
        OneMore(start, admit, report, q, count);
        outcomes, count := outcomes + [o], count + 1;
        if count >= BATCH {
          break;
        }
      }
      assert count == Taken(q);
    }

    /** One adapter's turn in `run_once_routed`. */
    method PollAdapterRouted(i: nat, caps: Capability, stt: seq<int> -> Transcription)
      returns (outcomes: seq<RoutedOutcome>)
      requires Valid() && i < |ids|
      modifies this`bridge, this`queues
      ensures var q, id := old(queues)[i], ids[i];
              && queues == old(queues)[i := q[Taken(q)..]]
              && bridge == old(bridge) + Packets(ByRoute(config, policy, caps, stt), q, Taken(q))
              && outcomes == Reports(RouteReport(config, policy, id, caps, stt), q, Taken(q))
    {
      outcomes := [];
      var id := ids[i];
      ghost var q := queues[i];
      ghost var admit, report := ByRoute(config, policy, caps, stt), RouteReport(config, policy, id, caps, stt);
      var count := 0;
      ghost var qs, start := queues, bridge;
      assert start + [] == start && qs[i := q[0..]] == qs;
      while true
        invariant count <= Taken(q) && count < BATCH && queues == qs[i := q[count..]]
        invariant bridge == start + Packets(admit, q, count)
        invariant outcomes == Reports(report, q, count)
        decreases |q| - count
      {
        var m := Receive(i);
        if m.None? {
          break;
        }
        assert m.value == q[count] && q[count..][1..] == q[count + 1..];
        var o := IngestRouted(id, m.value, caps, stt);
        assert o == report(q[count]);
        OneMore(start, admit, report, q, count);
        outcomes, count := outcomes + [o], count + 1;
        if count >= BATCH {
          break;
        }
      }
      assert count == Taken(q);
    }

    /** `run_once` */
    method RunOnce() returns (outcomes: seq<Outcome>)
      requires Valid()
      modifies this`bridge, this`queues
      ensures Valid() && Turn(old(queues), queues, |ids|)
      ensures bridge == old(bridge) + BatchPackets(Plain(config, policy), old(queues), |ids|)
      ensures outcomes == BatchReports(PlainReports(config, policy), ids, old(queues), |ids|)
    {
      outcomes := [];
      ghost var admit, report := Plain(config, policy), PlainReports(config, policy);
      ghost var qs, start := queues, bridge;
      assert start + [] == start;
      for i := 0 to |ids|
        invariant Valid() && Turn(qs, queues, i)
        invariant bridge == start + BatchPackets(admit, qs, i)
        invariant outcomes == BatchReports(report, ids, qs, i)
      {
        NextBatch(start, admit, report, ids, qs, i);
        NextTurn(qs, queues, i);
        var more := PollAdapter(i);
        outcomes := outcomes + more;
      }
    }

    /** `run_once_routed` */
    method RunOnceRouted(caps: Capability, stt: seq<int> -> Transcription) returns (outcomes: seq<RoutedOutcome>)
      requires Valid()
      modifies this`bridge, this`queues
      ensures Valid() && Turn(old(queues), queues, |ids|)
      ensures bridge == old(bridge) + BatchPackets(ByRoute(config, policy, caps, stt), old(queues), |ids|)
      ensures outcomes == BatchReports(RouteReports(config, policy, caps, stt), ids, old(queues), |ids|)
    {
      outcomes := [];
      ghost var admit, report := ByRoute(config, policy, caps, stt), RouteReports(config, policy, caps, stt);
      ghost var qs, start := queues, bridge;
      assert start + [] == start;
      for i := 0 to |ids|
        invariant Valid() && Turn(qs, queues, i)
        invariant bridge == start + BatchPackets(admit, qs, i)
        invariant outcomes == BatchReports(report, ids, qs, i)
      {
        NextBatch(start, admit, report, ids, qs, i);
        NextTurn(qs, queues, i);
        var more := PollAdapterRouted(i, caps, stt);
        outcomes := outcomes + more;
      }
    }
  }

  /** One more message of a queue. */
  lemma OneMore<O>(bridge: seq<Packet>, admit: Message -> Option<Packet>, report: Message -> O, q: seq<Message>, k: nat)
    requires k < |q|
    ensures bridge + Packets(admit, q, k + 1) == Offered(bridge + Packets(admit, q, k), admit(q[k]))
    ensures Reports(report, q, k + 1) == Reports(report, q, k) + [report(q[k])]
  {
  }

  lemma NextTurn(queues: seq<seq<Message>>, now: seq<seq<Message>>, i: nat)
    requires i < |queues| && Turn(queues, now, i)
    ensures now[i] == queues[i] && Turn(queues, now[i := now[i][Taken(now[i])..]], i + 1)
  {
  }

  /** One more adapter of a poll. */
  lemma NextBatch<O>(bridge: seq<Packet>, admit: Message -> Option<Packet>, report: string -> Message -> O,
                     ids: seq<string>, queues: seq<seq<Message>>, i: nat)
    requires i < |queues| == |ids|
    ensures var q := queues[i];
            && bridge + BatchPackets(admit, queues, i + 1) ==
               bridge + BatchPackets(admit, queues, i) + Packets(admit, q, Taken(q))
            && BatchReports(report, ids, queues, i + 1) ==
               BatchReports(report, ids, queues, i) + Reports(report(ids[i]), q, Taken(q))
  {
    var q := queues[i];
    assert bridge + (BatchPackets(admit, queues, i) + Packets(admit, q, Taken(q))) ==
           bridge + BatchPackets(admit, queues, i) + Packets(admit, q, Taken(q));
  }

  // ── What enters the bridge ─────────────────────────────────────────────────

  predicate WithinLimits(config: Config, p: Packet) {
    match p.content
    case Image(bytes, _, _) => |bytes| <= config.maxImageBytes
    case Voice(samples) => |samples| <= config.maxPcmSamples
    case TextBody(_) => true
  }

  /** Every packet comes from a message that was let in. */
  lemma {:induction false} PacketsAreAdmitted(admit: Message -> Option<Packet>, ms: seq<Message>, k: nat, i: nat)
    returns (j: nat)
    requires k <= |ms| && i < |Packets(admit, ms, k)|
    ensures j < k && admit(ms[j]) == Some(Packets(admit, ms, k)[i])
    decreases k
  {
    if i < |Packets(admit, ms, k - 1)| {
      j := PacketsAreAdmitted(admit, ms, k - 1, i);
    } else {
      j := k - 1;
    }
  }

  /** So does every packet of a poll of several adapters. */
  lemma {:induction false} BatchIsAdmitted(admit: Message -> Option<Packet>, queues: seq<seq<Message>>, k: nat, i: nat)
    returns (m: Message)
    requires k <= |queues| && i < |BatchPackets(admit, queues, k)|
    ensures admit(m) == Some(BatchPackets(admit, queues, k)[i]) && exists a :: 0 <= a < k && m in queues[a]
    decreases k
  {
    var before := BatchPackets(admit, queues, k - 1);
    if i < |before| {
      m := BatchIsAdmitted(admit, queues, k - 1, i);
    } else {
      var j := PacketsAreAdmitted(admit, queues[k - 1], Taken(queues[k - 1]), i - |before|);
      m := queues[k - 1][j];
    }
  }

  predicate Respected(config: Config, policy: Packet -> Verdict, p: Packet) {
    WithinLimits(config, p) && policy(p).Accepted?
  }

  /** Every packet that a poll puts into the bridge respects the gateway's limits and the bridge's policy. */
  lemma {:induction false} LimitsRespected(config: Config, policy: Packet -> Verdict, queues: seq<seq<Message>>, k: nat)
    requires k <= |queues|
    ensures forall p :: p in BatchPackets(Plain(config, policy), queues, k) ==> Respected(config, policy, p)
  {
    var ps := BatchPackets(Plain(config, policy), queues, k);
    forall i | 0 <= i < |ps| ensures Respected(config, policy, ps[i]) {
      var m := BatchIsAdmitted(Plain(config, policy), queues, k, i);
    }
  }

  /** So does every packet of a routed poll, and none of them is voice: voice enters as its transcript or not at all. */
  lemma {:induction false} RoutedWithoutVoice(config: Config, policy: Packet -> Verdict, caps: Capability,
                                              stt: seq<int> -> Transcription, queues: seq<seq<Message>>, k: nat)
    requires k <= |queues|
    ensures forall p :: p in BatchPackets(ByRoute(config, policy, caps, stt), queues, k) ==>
              Respected(config, policy, p) && !p.content.Voice?
  {
    var ps := BatchPackets(ByRoute(config, policy, caps, stt), queues, k);
    forall i | 0 <= i < |ps| ensures Respected(config, policy, ps[i]) && !ps[i].content.Voice? {
      var m := BatchIsAdmitted(ByRoute(config, policy, caps, stt), queues, k, i);
      assert Admitted(config, policy, Effective(m, caps, stt).value) == Some(ps[i]);
    }
  }

  function Enqueued(os: seq<Outcome>): nat {
    if os == [] then 0 else Enqueued(os[..|os| - 1]) + if os[|os| - 1].enqueued then 1 else 0
  }

  lemma {:induction false} EnqueuedAppend(a: seq<Outcome>, b: seq<Outcome>)
    ensures Enqueued(a + b) == Enqueued(a) + Enqueued(b)
  {
    if b == [] {
      assert a + b == a;
    } else {
      assert (a + b)[..|a + b| - 1] == a + b[..|b| - 1];
      EnqueuedAppend(a, b[..|b| - 1]);
    }
  }

  lemma {:induction false} ReportsTellPackets(
    config: Config, policy: Packet -> Verdict, channel: string, ms: seq<Message>, k: nat)
    requires k <= |ms|
    ensures |Packets(Plain(config, policy), ms, k)| == Enqueued(Reports(PlainReport(config, policy, channel), ms, k))
  {
    if k > 0 {
      ReportsTellPackets(config, policy, channel, ms, k - 1);
      var os := Reports(PlainReport(config, policy, channel), ms, k);
      assert os[..k - 1] == Reports(PlainReport(config, policy, channel), ms, k - 1);
    }
  }

  /** The bridge grows by exactly the outcomes that say so. */
  lemma {:induction false} OutcomesTellTheBridge(
    config: Config, policy: Packet -> Verdict, ids: seq<string>, queues: seq<seq<Message>>, k: nat)
    requires k <= |queues| == |ids|
    ensures |BatchPackets(Plain(config, policy), queues, k)| ==
            Enqueued(BatchReports(PlainReports(config, policy), ids, queues, k))
  {
    if k > 0 {
      var q := queues[k - 1];
      OutcomesTellTheBridge(config, policy, ids, queues, k - 1);
      ReportsTellPackets(config, policy, ids[k - 1], q, Taken(q));
      EnqueuedAppend(BatchReports(PlainReports(config, policy), ids, queues, k - 1),
                     Reports(PlainReport(config, policy, ids[k - 1]), q, Taken(q)));
    }
  }

  lemma {:induction false} ReportAt<O>(report: Message -> O, ms: seq<Message>, k: nat, i: nat)
    requires i < k <= |ms|
    ensures Reports(report, ms, k)[i] == report(ms[i])
  {
    if i < k - 1 {
      ReportAt(report, ms, k - 1, i);
    }
  }

  function PriorityFor(config: Config, m: Modality): Priority {
    match m
    case TextModality => config.textPriority
    case ImageModality => config.imagePriority
    case VoiceModality => config.voicePriority
  }

  /** An outcome tells whose message it was and whether it was admissible at its modality's priority. */
  predicate Told(config: Config, policy: Packet -> Verdict, channel: string, m: Message, o: Outcome) {
    && o.channel == channel && o.from == m.from && o.modality == m.content.Modality()
    && (o.enqueued <==> Respected(config, policy, Packet(m.content, PriorityFor(config, o.modality))))
    && (o.enqueued <==> o.rejection.None?)
    && Excused(config, policy, m.content, Packet(m.content, PriorityFor(config, o.modality)), o.rejection)
  }

  /** The reason given is the first that applies: the gateway's limit, with both sizes, and then the policy's own. */
  predicate Excused(config: Config, policy: Packet -> Verdict, c: Content, p: Packet, reason: Option<Reason>) {
    var image, voice := c.Image? && |c.bytes| > config.maxImageBytes, c.Voice? && |c.samples| > config.maxPcmSamples;
    && (image ==> reason == Some(ImageTooLarge(|c.bytes|, config.maxImageBytes)))
    && (voice ==> reason == Some(VoiceTooLong(|c.samples|, config.maxPcmSamples)))
    && (reason.Some? && (reason.value.ImageTooLarge? || reason.value.VoiceTooLong?) ==> image || voice)
    && (reason == Some(NotValid) <==> !image && !voice && policy(p).InvalidInput?)
    && (reason.Some? && reason.value.AgainstPolicy? <==> !image && !voice && policy(p).PolicyViolation?)
    && (reason.Some? && reason.value.AgainstPolicy? ==> policy(p) == PolicyViolation(reason.value.reason))
  }

  /** Every message of a plain poll has one outcome, and it tells what became of the message. */
  lemma {:induction false} PollIsTold(config: Config, policy: Packet -> Verdict, channel: string, ms: seq<Message>,
                                      k: nat)
    requires k <= |ms|
    ensures var os := Reports(PlainReport(config, policy, channel), ms, k);
            forall i :: 0 <= i < k ==> Told(config, policy, channel, ms[i], os[i])
  {
    var os := Reports(PlainReport(config, policy, channel), ms, k);
    forall i | 0 <= i < k ensures Told(config, policy, channel, ms[i], os[i]) {
      ReportAt(PlainReport(config, policy, channel), ms, k, i);
    }
  }

  /**
   A message is audited as received exactly when ingestion was attempted, under the modality it was
   ingested as; one that is not served leaves no sender.
   */
  predicate Audited(m: Message, o: RoutedOutcome) {
    && (o.audit.kind == Received <==> o.poll.Some?)
    && (o.poll.Some? ==> o.poll.value.modality == o.audit.modality && o.poll.value.from == o.audit.peer == m.from)
    && (o.poll.None? ==> o.audit.peer == "" && o.audit.modality == m.content.Modality())
  }

  lemma RoutedIsAudited(config: Config, policy: Packet -> Verdict, channel: string, m: Message, caps: Capability,
                        stt: seq<int> -> Transcription)
    ensures Audited(m, RoutedOf(config, policy, channel, m, caps, stt))
  {
    var d := Route(m.content, caps, stt);
    match m.content
    case TextBody(_) =>
    case Image(_, _, _) => assert d.Routed? || d.RoutedFallback? || d.Unsupported?;
    case Voice(_) => assert d.RoutedViaStt? || d.Unsupported?;
  }

  /** The content a model of these capabilities can take in is what is ingested; anything else is refused. */
  predicate Served(config: Config, policy: Packet -> Verdict, channel: string, m: Message, caps: Capability,
                   stt: seq<int> -> Transcription, content: Option<Content>)
  {
    var poll, packet := RoutedOf(config, policy, channel, m, caps, stt).poll, ByRoute(config, policy, caps, stt)(m);
    match content
    case Some(c) =>
      poll == Some(OutcomeOf(config, policy, channel, Message(m.from, c))) &&
      packet == Admitted(config, policy, Message(m.from, c))
    case None => poll == None && packet == None
  }

  /** Text and images that can be seen are served as they are. */
  lemma ServedAsSent(config: Config, policy: Packet -> Verdict, channel: string, m: Message, caps: Capability,
                     stt: seq<int> -> Transcription)
    requires m.content.TextBody? || (m.content.Image? && caps.vision)
    ensures Served(config, policy, channel, m, caps, stt, Some(m.content))
    ensures RoutedOf(config, policy, channel, m, caps, stt).decision == Routed(m.content.Modality())
  {
  }

  /** An image that cannot be seen is served by its caption, if it has one that is not empty. */
  lemma ServedByCaption(config: Config, policy: Packet -> Verdict, channel: string, m: Message, caps: Capability,
                        stt: seq<int> -> Transcription)
    requires m.content.Image? && !caps.vision
    ensures var caption := m.content.caption;
            Served(config, policy, channel, m, caps, stt,
                   if caption.Some? && |caption.value| > 0 then Some(TextBody(caption.value)) else None)
    ensures var d, caption := RoutedOf(config, policy, channel, m, caps, stt).decision, m.content.caption;
            d == if caption.Some? && |caption.value| > 0 then RoutedFallback(ImageModality, caption.value)
                 else Unsupported(ImageModality, NoVisionNoCaption)
  {
  }

  /** Voice is served by its transcript, if it can be transcribed. */
  lemma ServedByTranscript(config: Config, policy: Packet -> Verdict, channel: string, m: Message, caps: Capability,
                           stt: seq<int> -> Transcription)
    requires m.content.Voice?
    ensures var t := stt(m.content.samples);
            Served(config, policy, channel, m, caps, stt,
                   if caps.stt && t.Heard? then Some(TextBody(t.text)) else None)
    ensures var d, t := RoutedOf(config, policy, channel, m, caps, stt).decision, stt(m.content.samples);
            d == if !caps.stt then Unsupported(VoiceModality, NoSpeechToText)
                 else if t.Heard? then RoutedViaStt(t.text)
                 else Unsupported(VoiceModality, SpeechToTextFailed(t.error))
  {
  }

  /** Every message of a routed poll has one outcome, audited for what happened to it. */
  lemma {:induction false} RoutedPollIsAudited(config: Config, policy: Packet -> Verdict, channel: string,
                                               caps: Capability, stt: seq<int> -> Transcription, ms: seq<Message>,
                                               k: nat)
    requires k <= |ms|
    ensures var os := Reports(RouteReport(config, policy, channel, caps, stt), ms, k);
            forall i :: 0 <= i < k ==> Audited(ms[i], os[i])
  {
    var os := Reports(RouteReport(config, policy, channel, caps, stt), ms, k);
    forall i | 0 <= i < k ensures Audited(ms[i], os[i]) {
      ReportAt(RouteReport(config, policy, channel, caps, stt), ms, k, i);
      RoutedIsAudited(config, policy, channel, ms[i], caps, stt);
    }
  }

  // ── Many polls ─────────────────────────────────────────────────────────────

  /** What happens to one adapter's queue: messages arrive, or the gateway polls. */
  datatype Step = Arrive(messages: seq<Message>) | Poll

  function Queue(h: seq<Step>): seq<Message> {
    if h == [] then []
    else
      var q := Queue(h[..|h| - 1]);
      match h[|h| - 1] case Arrive(ms) => q + ms case Poll => q[Taken(q)..]
  }

  function Handled(h: seq<Step>): seq<Message> {
    if h == [] then []
    else
      var q, done := Queue(h[..|h| - 1]), Handled(h[..|h| - 1]);
      match h[|h| - 1] case Arrive(_) => done case Poll => done + q[..Taken(q)]
  }

  function Arrived(h: seq<Step>): seq<Message> {
    if h == [] then []
    else match h[|h| - 1] case Arrive(ms) => Arrived(h[..|h| - 1]) + ms case Poll => Arrived(h[..|h| - 1])
  }

  /** Whatever the timing, every message is handled once, in the order of arrival, or is still queued. */
  lemma {:induction false} NoMessageIsLost(h: seq<Step>)
    ensures Handled(h) + Queue(h) == Arrived(h)
  {
    if h != [] {
      var init := h[..|h| - 1];
      NoMessageIsLost(init);
      var q := Queue(init);
      match h[|h| - 1]
      case Arrive(ms) => assert Handled(init) + (q + ms) == Handled(init) + q + ms;
      case Poll => assert q == q[..Taken(q)] + q[Taken(q)..];
    }
  }

  function Polls(k: nat): seq<Step> {
    seq(k, _ => Poll)
  }

  lemma Ceiling(n: nat, k: nat)
    ensures n <= BATCH * k <==> k >= (n + BATCH - 1) / BATCH
  {
  }

  lemma BatchBeyond(q: seq<Message>, k: nat)
    ensures Beyond(Beyond(q, BATCH * k), BATCH) == Beyond(q, BATCH * (k + 1))
  {
  }

  function Beyond(q: seq<Message>, n: nat): seq<Message> {
    if |q| <= n then [] else q[n..]
  }

  /** `k` polls leave what is beyond the first `50 * k` messages, so `n` messages take `n / 50` polls, rounded up. */
  lemma {:induction false} PollsEmptyQueue(h: seq<Step>, k: nat)
    ensures Queue(h + Polls(k)) == Beyond(Queue(h), BATCH * k)
    ensures Queue(h + Polls(k)) == [] <==> k >= (|Queue(h)| + BATCH - 1) / BATCH
    decreases k
  {
    Ceiling(|Queue(h)|, k);
    if k == 0 {
      assert h + Polls(0) == h;
    } else {
      PollsEmptyQueue(h, k - 1);
      assert (h + Polls(k))[..|h| + k - 1] == h + Polls(k - 1);
      BatchBeyond(Queue(h), k - 1);
    }
  }

  // ── A gateway over whole runs ──────────────────────────────────────────────

  /** Messages arrive at an adapter, or the gateway polls all of them. */
  datatype GatewayStep = ArriveAt(adapter: nat, messages: seq<Message>) | PollAll

  /** What a run is to one adapter. */
  function Project(h: seq<GatewayStep>, a: nat): seq<Step> {
    if h == [] then []
    else
      var before := Project(h[..|h| - 1], a);
      match h[|h| - 1]
      case PollAll => before + [Poll]
      case ArriveAt(b, ms) => if b == a then before + [Arrive(ms)] else before
  }

  function QueuesAfter(n: nat, h: seq<GatewayStep>): (qs: seq<seq<Message>>)
    ensures |qs| == n && forall a :: 0 <= a < n ==> qs[a] == Queue(Project(h, a))
  {
    seq(n, a requires 0 <= a < n => Queue(Project(h, a)))
  }

  /** The outcomes of a run: those of its polls, each poll adapter by adapter. */
  function RunReports<O>(report: string -> Message -> O, ids: seq<string>, h: seq<GatewayStep>): seq<O> {
    if h == [] then []
    else
      var init, before := h[..|h| - 1], RunReports(report, ids, h[..|h| - 1]);
      if h[|h| - 1].PollAll? then before + BatchReports(report, ids, QueuesAfter(|ids|, init), |ids|) else before
  }

  /** The part of them that one adapter's messages contribute. */
  function AdapterReports<O>(report: Message -> O, h: seq<Step>): seq<O> {
    if h == [] then []
    else
      var before, q := AdapterReports(report, h[..|h| - 1]), Queue(h[..|h| - 1]);
      if h[|h| - 1].Poll? then before + Reports(report, q, Taken(q)) else before
  }

  lemma {:induction false} ReportsAppend<O>(report: Message -> O, a: seq<Message>, b: seq<Message>, k: nat)
    requires k <= |b|
    ensures Reports(report, a + b[..k], |a| + k) == Reports(report, a, |a|) + Reports(report, b, k)
  {
    if k == 0 {
      assert a + b[..0] == a;
    } else {
      ReportsAppend(report, a, b, k - 1);
      ReportsPrefix(report, a + b[..k - 1], a + b[..k], |a| + k - 1);
      assert (a + b[..k])[|a| + k - 1] == b[k - 1];
    }
  }

  lemma {:induction false} ReportsPrefix<O>(report: Message -> O, a: seq<Message>, b: seq<Message>, k: nat)
    requires k <= |a| && a <= b
    ensures Reports(report, a, k) == Reports(report, b, k)
  {
    if k > 0 {
      ReportsPrefix(report, a, b, k - 1);
    }
  }

  /** Over a whole run an adapter contributes exactly one outcome for each message handled, in order. */
  lemma {:induction false} HandledIsReported<O>(report: Message -> O, h: seq<Step>)
    ensures AdapterReports(report, h) == Reports(report, Handled(h), |Handled(h)|)
  {
    if h != [] {
      var init := h[..|h| - 1];
      HandledIsReported(report, init);
      if h[|h| - 1].Poll? {
        ReportsAppend(report, Handled(init), Queue(init), Taken(Queue(init)));
      }
    }
  }

  function PolledChannel(o: Outcome): string {
    o.channel
  }

  /** The outcomes that name a channel. */
  function Naming<O>(outcomes: seq<O>, channel: O -> string, id: string): seq<O> {
    if outcomes == [] then []
    else
      var last := outcomes[|outcomes| - 1];
      Naming(outcomes[..|outcomes| - 1], channel, id) + if channel(last) == id then [last] else []
  }

  lemma {:induction false} NamingAppend<O>(a: seq<O>, b: seq<O>, channel: O -> string, id: string)
    ensures Naming(a + b, channel, id) == Naming(a, channel, id) + Naming(b, channel, id)
  {
    if b == [] {
      assert a + b == a;
    } else {
      var n := |b| - 1;
      assert (a + b)[..|a + b| - 1] == a + b[..n];
      NamingAppend(a, b[..n], channel, id);
      Reassociate(Naming(a, channel, id), Naming(b[..n], channel, id), if channel(b[n]) == id then [b[n]] else []);
    }
  }

  /** Every outcome of an adapter names its channel. */
  ghost predicate Names<O>(report: Message -> O, channel: O -> string, id: string) {
    forall m :: channel(report(m)) == id
  }

  lemma {:induction false} NamingReports<O>(report: Message -> O, ms: seq<Message>, k: nat, channel: O -> string,
                                            mine: string, id: string)
    requires k <= |ms| && Names(report, channel, mine)
    ensures Naming(Reports(report, ms, k), channel, id) == if mine == id then Reports(report, ms, k) else []
  {
    if k > 0 {
      NamingReports(report, ms, k - 1, channel, mine, id);
      NamingAppend(Reports(report, ms, k - 1), [report(ms[k - 1])], channel, id);
    }
  }

  /** No other adapter has this one's id. */
  predicate OnlyOne(ids: seq<string>, a: nat)
    requires a < |ids|
  {
    forall b :: 0 <= b < |ids| && b != a ==> ids[b] != ids[a]
  }

  /** What one adapter's turn adds to the outcomes that name a channel. */
  lemma NamingTurn<O>(before: seq<O>, report: Message -> O, q: seq<Message>, channel: O -> string, mine: string,
                      id: string)
    requires Names(report, channel, mine)
    ensures Naming(before + Reports(report, q, Taken(q)), channel, id) ==
            Naming(before, channel, id) + if mine == id then Reports(report, q, Taken(q)) else []
  {
    NamingReports(report, q, Taken(q), channel, mine, id);
    NamingAppend(before, Reports(report, q, Taken(q)), channel, id);
  }

  lemma {:induction false} NamingBatch<O>(report: string -> Message -> O, channel: O -> string, ids: seq<string>,
                                          queues: seq<seq<Message>>, a: nat, k: nat)
    requires a < |ids| && OnlyOne(ids, a) && k <= |queues| == |ids|
    requires forall id :: Names(report(id), channel, id)
    ensures Naming(BatchReports(report, ids, queues, k), channel, ids[a]) ==
            if a < k then Reports(report(ids[a]), queues[a], Taken(queues[a])) else []
  {
    if k > 0 {
      var b := k - 1;
      NamingBatch(report, channel, ids, queues, a, b);
      NamingTurn(BatchReports(report, ids, queues, b), report(ids[b]), queues[b], channel, ids[b], ids[a]);
    }
  }

  lemma AdapterReportsSnoc<O>(report: Message -> O, h: seq<Step>, s: Step)
    ensures AdapterReports(report, h + [s]) ==
            AdapterReports(report, h) + if s.Poll? then Reports(report, Queue(h), Taken(Queue(h))) else []
  {
    assert (h + [s])[..|h|] == h;
  }

  lemma {:induction false} RunOfAdapter<O>(report: string -> Message -> O, channel: O -> string, ids: seq<string>,
                                           h: seq<GatewayStep>, a: nat)
    requires a < |ids| && OnlyOne(ids, a) && forall id :: Names(report(id), channel, id)
    ensures Naming(RunReports(report, ids, h), channel, ids[a]) == AdapterReports(report(ids[a]), Project(h, a))
  {
    if h != [] {
      var init, s := h[..|h| - 1], h[|h| - 1];
      RunOfAdapter(report, channel, ids, init, a);
      match s
      case PollAll =>
        var queues := QueuesAfter(|ids|, init);
        NamingAppend(RunReports(report, ids, init), BatchReports(report, ids, queues, |ids|), channel, ids[a]);
        NamingBatch(report, channel, ids, queues, a, |ids|);
        AdapterReportsSnoc(report(ids[a]), Project(init, a), Poll);
      case ArriveAt(b, ms) =>
        AdapterReportsSnoc(report(ids[a]), Project(init, a), Arrive(ms));
    }
  }

  /**
   Over a whole run, the outcomes that name an adapter's channel are one for each message handled there,
   in order, whatever other adapters did in between.
   */
  lemma RunReportsWhatIsHandled(config: Config, policy: Packet -> Verdict, ids: seq<string>, h: seq<GatewayStep>,
                                a: nat)
    requires a < |ids| && OnlyOne(ids, a)
    ensures var handled := Handled(Project(h, a));
            Naming(RunReports(PlainReports(config, policy), ids, h), PolledChannel, ids[a]) ==
            Reports(PlainReport(config, policy, ids[a]), handled, |handled|)
  {
    RunOfAdapter(PlainReports(config, policy), PolledChannel, ids, h, a);
    HandledIsReported(PlainReport(config, policy, ids[a]), Project(h, a));
  }

  function SumTo(f: nat -> nat, n: nat): nat {
    if n == 0 then 0 else SumTo(f, n - 1) + f(n - 1)
  }

  lemma {:induction false} SumSame(f: nat -> nat, g: nat -> nat, n: nat)
    requires forall a :: 0 <= a < n ==> g(a) == f(a)
    ensures SumTo(g, n) == SumTo(f, n)
  {
    if n > 0 {
      SumSame(f, g, n - 1);
    }
  }

  /** How many messages each adapter had handled. */
  function HandledCount(h: seq<GatewayStep>): nat -> nat {
    a => |Handled(Project(h, a))|
  }

  /** What one step adds to the messages an adapter had handled. */
  lemma HandledByStep(h: seq<GatewayStep>, s: GatewayStep, a: nat)
    ensures |Handled(Project(h + [s], a))| ==
            |Handled(Project(h, a))| + if s.PollAll? then Taken(Queue(Project(h, a))) else 0
  {
    ProjectSnoc(h, s, a);
    HandledSnoc(Project(h, a), if s.PollAll? then Poll else Arrive(s.messages));
  }

  lemma BatchGrows<O>(report: string -> Message -> O, ids: seq<string>, queues: seq<seq<Message>>, k: nat)
    requires 0 < k <= |queues| == |ids|
    ensures |BatchReports(report, ids, queues, k)| == |BatchReports(report, ids, queues, k - 1)| + Taken(queues[k - 1])
  {
  }

  lemma {:induction false} BatchSize<O>(report: string -> Message -> O, ids: seq<string>, queues: seq<seq<Message>>,
                                        f: nat -> nat, g: nat -> nat, k: nat)
    requires k <= |ids| == |queues| && forall a :: 0 <= a < k ==> g(a) == f(a) + Taken(queues[a])
    ensures |BatchReports(report, ids, queues, k)| == SumTo(g, k) - SumTo(f, k)
  {
    if k > 0 {
      BatchSize(report, ids, queues, f, g, k - 1);
      BatchGrows(report, ids, queues, k);
    }
  }

  lemma ProjectSnoc(h: seq<GatewayStep>, s: GatewayStep, a: nat)
    ensures Project(h + [s], a) ==
            if s.PollAll? then Project(h, a) + [Poll]
            else if s.adapter == a then Project(h, a) + [Arrive(s.messages)] else Project(h, a)
  {
    assert (h + [s])[..|h|] == h;
  }

  lemma HandledSnoc(h: seq<Step>, s: Step)
    ensures var q := Queue(h);
            && Handled(h + [s]) == (if s.Poll? then Handled(h) + q[..Taken(q)] else Handled(h))
            && Queue(h + [s]) == if s.Poll? then q[Taken(q)..] else q + s.messages
  {
    assert (h + [s])[..|h|] == h;
  }

  lemma {:induction false} NothingHandledYet(n: nat)
    ensures SumTo(HandledCount([]), n) == 0
  {
    if n > 0 {
      NothingHandledYet(n - 1);
    }
  }

  lemma OutcomesOfStep<O>(report: string -> Message -> O, ids: seq<string>, h: seq<GatewayStep>, s: GatewayStep, n: nat)
    requires n == |ids|
    ensures SumTo(HandledCount(h + [s]), n) ==
            SumTo(HandledCount(h), n) + if s.PollAll? then |BatchReports(report, ids, QueuesAfter(n, h), n)| else 0
  {
    var f, g, queues := HandledCount(h), HandledCount(h + [s]), QueuesAfter(n, h);
    forall a | 0 <= a < n ensures g(a) == f(a) + if s.PollAll? then Taken(queues[a]) else 0 {
      HandledByStep(h, s, a);
    }
    if s.PollAll? {
      BatchSize(report, ids, queues, f, g, n);
    } else {
      SumSame(f, g, n);
    }
  }

  /** There are as many outcomes in a run as messages handled, over all adapters. */
  lemma {:induction false} OneOutcomeEach<O>(report: string -> Message -> O, ids: seq<string>, h: seq<GatewayStep>)
    ensures |RunReports(report, ids, h)| == SumTo(HandledCount(h), |ids|)
  {
    if h == [] {
      NothingHandledYet(|ids|);
    } else {
      var init, s := h[..|h| - 1], h[|h| - 1];
      assert h == init + [s];
      OneOutcomeEach(report, ids, init);
      OutcomesOfStep(report, ids, init, s, |ids|);
    }
  }

  lemma QueueOfStep(h: seq<GatewayStep>, s: GatewayStep, a: nat)
    ensures var q := Queue(Project(h, a));
            Queue(Project(h + [s], a)) ==
            if s.PollAll? then q[Taken(q)..] else if s.adapter == a then q + s.messages else q
  {
    ProjectSnoc(h, s, a);
    HandledSnoc(Project(h, a), if s.PollAll? then Poll else Arrive(s.messages));
  }

  lemma QueuesStep(n: nat, h: seq<GatewayStep>, s: GatewayStep, now: seq<seq<Message>>)
    requires if s.PollAll? then Turn(QueuesAfter(n, h), now, n)
             else now == Delivered(QueuesAfter(n, h), s.adapter, s.messages)
    ensures now == QueuesAfter(n, h + [s])
  {
    var queues := QueuesAfter(n, h);
    forall a | 0 <= a < n ensures now[a] == Queue(Project(h + [s], a)) {
      assert queues[a] == Queue(Project(h, a));
      QueueOfStep(h, s, a);
    }
  }

  function Delivered(queues: seq<seq<Message>>, a: nat, ms: seq<Message>): seq<seq<Message>> {
    if a < |queues| then queues[a := queues[a] + ms] else queues
  }

  /** A gateway serving a run from empty queues: what waits and what was reported are what the run determines. */
  method Serve(g: ChannelGateway, steps: seq<GatewayStep>) returns (outcomes: seq<Outcome>)
    requires g.Valid() && g.queues == QueuesAfter(|g.ids|, [])
    modifies g`bridge, g`queues
    ensures g.queues == QueuesAfter(|g.ids|, steps)
    ensures outcomes == RunReports(PlainReports(g.config, g.policy), g.ids, steps)
  {
    outcomes := [];
    ghost var report := PlainReports(g.config, g.policy);
    for i := 0 to |steps|
      invariant g.queues == QueuesAfter(|g.ids|, steps[..i])
      invariant outcomes == RunReports(report, g.ids, steps[..i])
    {
      assert steps[..i + 1] == steps[..i] + [steps[i]] && steps[..i + 1][..i] == steps[..i];
      match steps[i] {
        case PollAll =>
          var more := g.RunOnce();
          outcomes := outcomes + more;
        case ArriveAt(a, ms) => g.queues := Delivered(g.queues, a, ms);
      }
      QueuesStep(|g.ids|, steps[..i], steps[i], g.queues);
    }
    assert steps[..|steps|] == steps;
  }
}
