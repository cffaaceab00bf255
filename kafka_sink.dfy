/** The Kafka sink (async_kafka.go): the producer settings it derives from
    its configuration, and the worker loop that moves records from the
    shared queue to the producer and handles the producer's answers.

    The producer itself is not modelled. Handing a message to it is
    `published`; its answers are the events `Success(k)` and `Error(k)` for
    the k-th message still in flight. The order in which the worker's
    `select` picks ready cases is the order of the events, so one run of the
    loop is a sequence of events. */
module KafkaSink {
  import opened Base
  import opened Queue

  const DefaultMaxMessageBytes := 1024 * 1024

  // ----- compression -----

  datatype CompressionCodec = CompressionNone | CompressionGZIP | CompressionSnappy | CompressionLZ4 | CompressionZSTD

  const CompressionMap: map<int, CompressionCodec> := map[
    0 := CompressionNone,
    1 := CompressionGZIP,
    2 := CompressionSnappy,
    3 := CompressionLZ4,
    4 := CompressionZSTD]

  /** `kafkaCompression`: the codes 0..4 name the five codecs, and every
      other code means no compression. */
  function KafkaCompression(k: int): (c: CompressionCodec)
    ensures 0 <= k <= 4 ==> CompressionCode(c) == k
    ensures !(0 <= k <= 4) ==> c == CompressionNone
  {
    if k in CompressionMap then CompressionMap[k] else CompressionNone
  }

  /** The configuration code of a codec. */
  function CompressionCode(c: CompressionCodec): (k: int)
    ensures 0 <= k <= 4
  {
    match c
    case CompressionNone => 0
    case CompressionGZIP => 1
    case CompressionSnappy => 2
    case CompressionLZ4 => 3
    case CompressionZSTD => 4
  }

  /** Every codec is reachable from its code. */
  lemma CompressionRoundTrip(c: CompressionCodec)
    ensures KafkaCompression(CompressionCode(c)) == c
  {
  }

  // ----- required acks -----

  datatype RequiredAcks = NoResponse | WaitForLocal | WaitForAll

  const RequiredAcksMap: map<int, RequiredAcks> := map[
    0 := NoResponse,
    1 := WaitForLocal,
    -1 := WaitForAll]

  /** `kafkaRequiredAcks`: the values 0, 1 and -1 name the three levels,
      and any value other than 0 and 1 waits for all replicas. */
  function KafkaRequiredAcks(k: int): (a: RequiredAcks)
    ensures -1 <= k <= 1 ==> AcksCode(a) == k
    ensures a == WaitForAll <==> k != 0 && k != 1
  {
    if k in RequiredAcksMap then RequiredAcksMap[k] else WaitForAll
  }

  /** The protocol value of an acknowledgement level. */
  function AcksCode(a: RequiredAcks): (k: int)
    ensures -1 <= k <= 1
  {
    match a
    case NoResponse => 0
    case WaitForLocal => 1
    case WaitForAll => -1
  }

  /** Every level is reachable from its value. */
  lemma RequiredAcksRoundTrip(a: RequiredAcks)
    ensures KafkaRequiredAcks(AcksCode(a)) == a
  {
  }

  // ----- protocol version -----

  datatype KafkaVersion = Version(major: nat, minor: nat, veryMinor: nat, patch: nat) | MaxVersion

  /** The versions the table lists, in the order it lists them. Each entry
      of the source's table maps the dotted text of a version to that
      version, so the table is `VersionText` inverted on this list. */
  const ListedVersions: seq<KafkaVersion> := [
    Version(0, 8, 2, 0), Version(0, 8, 2, 1), Version(0, 8, 2, 2),
    Version(0, 9, 0, 0), Version(0, 9, 0, 1),
    Version(0, 10, 0, 0), Version(0, 10, 0, 1), Version(0, 10, 1, 0), Version(0, 10, 1, 1),
    Version(0, 10, 2, 0), Version(0, 10, 2, 1),
    Version(0, 11, 0, 0), Version(0, 11, 0, 1), Version(0, 11, 0, 2),
    Version(1, 0, 0, 0), Version(1, 1, 0, 0), Version(1, 1, 1, 0),
    Version(2, 0, 0, 0), Version(2, 0, 1, 0), Version(2, 1, 0, 0), Version(2, 2, 0, 0),
    Version(2, 3, 0, 0), Version(2, 4, 0, 0), Version(2, 5, 0, 0)]

  const Dot: Bytes := [46]

  /** The dotted text of a version, "major.minor.veryMinor.patch". */
  function VersionText(v: KafkaVersion): Bytes
    requires v.Version?
  {
    Digits(v.major) + Dot + (Digits(v.minor) + Dot + (Digits(v.veryMinor) + Dot + Digits(v.patch)))
  }

  /** The first listed version whose text is `s`, or the newest version:
      the newest version exactly when no version of `vs` has that text, and
      otherwise a version of `vs` with that text. */
  function Lookup(vs: seq<KafkaVersion>, s: Bytes): (r: KafkaVersion)
    requires forall i :: 0 <= i < |vs| ==> vs[i].Version?
    ensures r == MaxVersion <==> forall i :: 0 <= i < |vs| ==> VersionText(vs[i]) != s
    ensures r != MaxVersion ==> r in vs && VersionText(r) == s
    decreases |vs|
  {
    if vs == [] then MaxVersion
    else if VersionText(vs[0]) == s then vs[0]
    else Lookup(vs[1..], s)
  }

  /** `kafkaVersion`: the listed version with this text, or the newest
      version the client knows. */
  function KafkaVersionOf(s: Bytes): (v: KafkaVersion)
    ensures v == MaxVersion <==> forall i :: 0 <= i < |ListedVersions| ==> VersionText(ListedVersions[i]) != s
    ensures v != MaxVersion ==> v in ListedVersions && VersionText(v) == s
  {
    Lookup(ListedVersions, s)
  }

  /** The first dot after a digit string is the one that follows it. */
  lemma FirstDot(x: Bytes, r: Bytes)
    requires AllDigits(x)
    ensures (x + Dot + r)[|x|] == 46
    ensures forall i :: 0 <= i < |x| ==> (x + Dot + r)[i] != 46
  {
  }

  /** Digit strings cut at the first dot: the part before it is determined. */
  lemma CutAtDot(x1: Bytes, r1: Bytes, x2: Bytes, r2: Bytes)
    requires AllDigits(x1) && AllDigits(x2)
    requires x1 + Dot + r1 == x2 + Dot + r2
    ensures x1 == x2 && r1 == r2
  {
    var s := x1 + Dot + r1;
    FirstDot(x1, r1);
    FirstDot(x2, r2);
    assert |x1| == |x2|;
    assert x1 == s[..|x1|] == x2;
    assert r1 == s[|x1| + 1..] == r2;
  }

  lemma DigitsInjective(a: nat, b: nat)
    requires Digits(a) == Digits(b)
    ensures a == b
  {
    DigitsRoundTrip(a);
    DigitsRoundTrip(b);
  }

  /** Different versions have different texts. */
  lemma VersionTextInjective(v: KafkaVersion, u: KafkaVersion)
    requires v.Version? && u.Version? && VersionText(v) == VersionText(u)
    ensures v == u
  {
    CutAtDot(Digits(v.major), Digits(v.minor) + Dot + (Digits(v.veryMinor) + Dot + Digits(v.patch)),
             Digits(u.major), Digits(u.minor) + Dot + (Digits(u.veryMinor) + Dot + Digits(u.patch)));
    CutAtDot(Digits(v.minor), Digits(v.veryMinor) + Dot + Digits(v.patch),
             Digits(u.minor), Digits(u.veryMinor) + Dot + Digits(u.patch));
    CutAtDot(Digits(v.veryMinor), Digits(v.patch), Digits(u.veryMinor), Digits(u.patch));
    DigitsInjective(v.major, u.major);
    DigitsInjective(v.minor, u.minor);
    DigitsInjective(v.veryMinor, u.veryMinor);
    DigitsInjective(v.patch, u.patch);
  }

  /** A version of the list is found from its text. */
  lemma LookupFinds(vs: seq<KafkaVersion>, v: KafkaVersion)
    requires forall i :: 0 <= i < |vs| ==> vs[i].Version?
    requires v in vs
    ensures Lookup(vs, VersionText(v)) == v
  {
    var i :| 0 <= i < |vs| && vs[i] == v;
    assert VersionText(vs[i]) == VersionText(v);
    var r := Lookup(vs, VersionText(v));
    VersionTextInjective(r, v);
  }

  /** Every listed version is found from its text. */
  lemma VersionRoundTrip(v: KafkaVersion)
    requires v in ListedVersions
    ensures KafkaVersionOf(VersionText(v)) == v
  {
    LookupFinds(ListedVersions, v);
  }

  // ----- configuration -----

  datatype KafkaPanic = BrokersEmpty | TopicEmpty

  /** `check`: brokers are tested first, then the topic, and a missing
      one is the error; with both present the result is the size limit to
      use, the configured one or 1 MiB in place of 0. */
  function CheckConfig(brokers: seq<Bytes>, topic: Bytes, maxMessageBytes: int): (r: Result<int, KafkaPanic>)
    ensures r == Err(BrokersEmpty) <==> brokers == []
    ensures r == Err(TopicEmpty) <==> brokers != [] && topic == []
    ensures r.Ok? <==> brokers != [] && topic != []
    ensures r.Ok? && maxMessageBytes != 0 ==> r.value == maxMessageBytes
    ensures r.Ok? && maxMessageBytes == 0 ==> r.value == 1048576
  {
    if |brokers| == 0 then Err(BrokersEmpty)
    else if topic == [] then Err(TopicEmpty)
    else Ok(if maxMessageBytes == 0 then DefaultMaxMessageBytes else maxMessageBytes)
  }

  /** Checking the checked settings again changes nothing. */
  lemma CheckConfigIdempotent(brokers: seq<Bytes>, topic: Bytes, maxMessageBytes: int)
    requires CheckConfig(brokers, topic, maxMessageBytes).Ok?
    ensures var r := CheckConfig(brokers, topic, maxMessageBytes);
      CheckConfig(brokers, topic, r.value) == r
  {
  }

  /** The producer settings `client` assembles; the partitioner, the return
      flags and the metadata refresh period are constants of the client and
      are not part of the model. */
  datatype ProducerConfig = ProducerConfig(
    requiredAcks: RequiredAcks,
    version: KafkaVersion,
    maxMessageBytes: int,
    compression: CompressionCodec)

  // ----- the worker loop -----

  datatype Event = Record | Success(k: nat) | Error(k: nat)

  /** The worker and the queue it drains. `blocked` holds a failed message
      whose re-queue found the queue full: the worker is the only reader of
      the queue, so that send never completes. */
  datatype Worker = Worker(
    queue: seq<Bytes>,
    capacity: nat,
    isQuit: bool,
    inFlight: seq<Bytes>,
    published: seq<Bytes>,
    delivered: seq<Bytes>,
    dropped: seq<Bytes>,
    blocked: Option<Bytes>,
    ended: bool)

  /** `s` without its k-th element. */
  function Remove(s: seq<Bytes>, k: nat): (r: seq<Bytes>)
    requires k < |s|
    ensures |r| == |s| - 1
  {
    s[..k] + s[k + 1..]
  }

  lemma RemoveMultiset(s: seq<Bytes>, k: nat)
    requires k < |s|
    ensures multiset(Remove(s, k)) + multiset{s[k]} == multiset(s)
  {
    assert s == s[..k] + [s[k]] + s[k + 1..];
  }

  /** The worker is still serving events. */
  predicate Active(w: Worker) {
    !w.ended && w.blocked.None?
  }

  /** One turn of the loop of `flushKafka`. It never touches the quit flag
      or the capacity, a stopped worker takes no event, and the loop ends
      only on a turn that finds the quit flag set and the queue empty. */
  function Step(w: Worker, e: Event): (r: Worker)
    ensures r.isQuit == w.isQuit && r.capacity == w.capacity
    ensures !Active(w) ==> r == w
    ensures !w.ended && r.ended ==> w.isQuit && w.queue == [] && r.queue == []
  {
    if !Active(w) then w
    else match e
      case Record =>
        if w.queue == [] then w
        else w.(queue := w.queue[1..], inFlight := w.inFlight + [w.queue[0]], published := w.published + [w.queue[0]])
      case Success(k) =>
        if k >= |w.inFlight| then w
        else w.(inFlight := Remove(w.inFlight, k), delivered := w.delivered + [w.inFlight[k]],
                ended := w.isQuit && w.queue == [])
      case Error(k) =>
        if k >= |w.inFlight| then w
        else
          var m := w.inFlight[k];
          var w1 := w.(inFlight := Remove(w.inFlight, k));
          if w.isQuit then w1.(dropped := w.dropped + [m], ended := w.queue == [])
          else if |w.queue| < w.capacity then w1.(queue := w.queue + [m])
          else w1.(blocked := Some(m))
  }

  /** Turns of the loop, one per event. The quit flag and the capacity stay
      as they were, and a stopped worker stays as it is. */
  function Run(w: Worker, es: seq<Event>): (r: Worker)
    ensures r.isQuit == w.isQuit && r.capacity == w.capacity
    ensures !Active(w) ==> r == w
    decreases |es|
  {
    if es == [] then w else Run(Step(w, es[0]), es[1..])
  }

  lemma {:induction false} RunAppend(w: Worker, es: seq<Event>, e: Event)
    ensures Run(w, es + [e]) == Step(Run(w, es), e)
    decreases |es|
  {
    if es != [] {
      assert (es + [e])[1..] == es[1..] + [e];
      RunAppend(Step(w, es[0]), es[1..], e);
    }
  }

  /** Every record the worker holds: waiting, in flight, delivered, dropped
      or stuck in the blocked re-queue. */
  function Stock(w: Worker): multiset<Bytes> {
    multiset(w.queue) + multiset(w.inFlight) + multiset(w.delivered) + multiset(w.dropped)
      + (if w.blocked.Some? then multiset{w.blocked.value} else multiset{})
  }

  lemma RecordConserves(w: Worker)
    requires Active(w) && w.queue != []
    ensures Stock(Step(w, Record)) == Stock(w)
  {
    assert w.queue == [w.queue[0]] + w.queue[1..];
    assert multiset(w.queue) == multiset{w.queue[0]} + multiset(w.queue[1..]);
  }

  lemma SuccessConserves(w: Worker, k: nat)
    requires Active(w) && k < |w.inFlight|
    ensures Stock(Step(w, Success(k))) == Stock(w)
  {
    RemoveMultiset(w.inFlight, k);
  }

  lemma ErrorConserves(w: Worker, k: nat)
    requires Active(w) && k < |w.inFlight|
    ensures Stock(Step(w, Error(k))) == Stock(w)
  {
    RemoveMultiset(w.inFlight, k);
  }

  /** No event creates or loses a record. */
  lemma StepConserves(w: Worker, e: Event)
    ensures Stock(Step(w, e)) == Stock(w)
  {
    if Active(w) {
      match e
      case Record =>
        if w.queue != [] {
          RecordConserves(w);
        }
      case Success(k) =>
        if k < |w.inFlight| {
          SuccessConserves(w, k);
        }
      case Error(k) =>
        if k < |w.inFlight| {
          ErrorConserves(w, k);
        }
    }
  }

  lemma {:induction false} RunConserves(w: Worker, es: seq<Event>)
    ensures Stock(Run(w, es)) == Stock(w)
    decreases |es|
  {
    if es != [] {
      StepConserves(w, es[0]);
      RunConserves(Step(w, es[0]), es[1..]);
    }
  }

  /** The loop never forgets a delivered, dropped or published record. */
  lemma {:induction false} RunKeeps(w: Worker, es: seq<Event>)
    ensures var r := Run(w, es);
      && |w.delivered| <= |r.delivered| && r.delivered[..|w.delivered|] == w.delivered
      && |w.dropped| <= |r.dropped| && r.dropped[..|w.dropped|] == w.dropped
      && |w.published| <= |r.published| && r.published[..|w.published|] == w.published
    decreases |es|
  {
    if es != [] {
      var w1 := Step(w, es[0]);
      RunKeeps(w1, es[1..]);
      var r := Run(w, es);
      assert r.delivered[..|w.delivered|] == r.delivered[..|w1.delivered|][..|w.delivered|];
      assert r.dropped[..|w.dropped|] == r.dropped[..|w1.dropped|][..|w.dropped|];
      assert r.published[..|w.published|] == r.published[..|w1.published|][..|w.published|];
    }
  }

  /** A record event hands the oldest queued record to the producer and
      never ends the loop. */
  lemma RecordPublishesHead(w: Worker)
    requires Active(w) && w.queue != []
    ensures var r := Step(w, Record);
      && r.published == w.published + [w.queue[0]]
      && r.inFlight == w.inFlight + [w.queue[0]]
      && r.queue == w.queue[1..]
      && Active(r)
  {
  }

  /** An acknowledgement ends the loop exactly when quitting with an empty
      queue. */
  lemma SuccessEndsIff(w: Worker, k: nat)
    requires Active(w) && k < |w.inFlight|
    ensures var r := Step(w, Success(k));
      && (r.ended <==> w.isQuit && w.queue == [])
      && r.delivered == w.delivered + [w.inFlight[k]]
      && r.queue == w.queue && r.blocked.None?
  {
  }

  /** A failure while not quitting puts the message back at the tail of the
      queue when there is room, and otherwise leaves the worker blocked. */
  lemma ErrorRequeues(w: Worker, k: nat)
    requires Active(w) && k < |w.inFlight| && !w.isQuit
    ensures var r := Step(w, Error(k));
      && !r.ended && r.dropped == w.dropped
      && (|w.queue| < w.capacity ==> r.queue == w.queue + [w.inFlight[k]] && r.blocked.None?)
      && (|w.queue| >= w.capacity ==> r.queue == w.queue && r.blocked == Some(w.inFlight[k]))
  {
  }

  /** A failure while quitting is dropped, not re-queued, and ends the loop
      exactly when the queue is empty. */
  lemma ErrorWhileQuitting(w: Worker, k: nat)
    requires Active(w) && k < |w.inFlight| && w.isQuit
    ensures var r := Step(w, Error(k));
      && r.queue == w.queue
      && r.dropped == w.dropped + [w.inFlight[k]]
      && (r.ended <==> w.queue == [])
  {
  }

  /** A run that ends leaves the queue empty: records that arrive later are
      never read. */
  lemma {:induction false} EndedRunHasEmptyQueue(w: Worker, es: seq<Event>)
    requires !w.ended
    ensures Run(w, es).ended ==> Run(w, es).queue == []
    decreases |es|
  {
    if es != [] {
      var w1 := Step(w, es[0]);
      if !w1.ended {
        EndedRunHasEmptyQueue(w1, es[1..]);
      }
    }
  }

  /** Without the quit flag nothing is ever dropped and the loop never ends. */
  lemma {:induction false} NoDropWithoutQuit(w: Worker, es: seq<Event>)
    requires !w.isQuit && !w.ended
    ensures Run(w, es).dropped == w.dropped && !Run(w, es).ended
    decreases |es|
  {
    if es != [] {
      NoDropWithoutQuit(Step(w, es[0]), es[1..]);
    }
  }

  predicate NoErrors(es: seq<Event>) {
    forall i :: 0 <= i < |es| ==> !es[i].Error?
  }

  /** Without failures the producer receives the records in queue order:
      what was published, followed by what still waits, never changes. */
  lemma {:induction false} PublishedInQueueOrder(w: Worker, es: seq<Event>)
    requires NoErrors(es)
    ensures Run(w, es).published + Run(w, es).queue == w.published + w.queue
    decreases |es|
  {
    if es != [] {
      var w1 := Step(w, es[0]);
      if Active(w) && es[0].Record? && w.queue != [] {
        assert w.queue == [w.queue[0]] + w.queue[1..];
      }
      assert w1.published + w1.queue == w.published + w.queue;
      assert NoErrors(es[1..]) by {
        forall i | 0 <= i < |es[1..]| ensures !es[1..][i].Error? {
          assert es[1..][i] == es[i + 1];
        }
      }
      PublishedInQueueOrder(w1, es[1..]);
    }
  }

  /** The quit flag is only looked at when the producer answers: a worker
      told to quit with nothing queued and nothing in flight gets no answer
      and never ends, so `SignQuite` waits for ever. */
  lemma {:induction false} IdleQuitNeverEnds(w: Worker, es: seq<Event>)
    requires Active(w) && w.isQuit && w.queue == [] && w.inFlight == []
    ensures Run(w, es) == w
    decreases |es|
  {
    if es != [] {
      assert Step(w, es[0]) == w;
      IdleQuitNeverEnds(w, es[1..]);
    }
  }

  /** The loop can end with messages still in flight: their answers are
      never read. */
  lemma EndsWithMessagesInFlight(a: Bytes, b: Bytes)
    ensures var w := Worker([a, b], 2, true, [], [], [], [], None, false);
      var r := Run(w, [Record, Record, Success(0)]);
      r.ended && r.inFlight == [b] && r.delivered == [a]
  {
  }

  /** The answer of `SignQuite`: the worker's `true` on the quit channel.
      It comes only when the channel was made and the worker has ended;
      otherwise the receive is still waiting. */
  function QuitAnswer(channelMade: bool, w: Worker): Option<bool> {
    if channelMade && w.ended then Some(true) else None
  }

  /** As written the quit channel is never made: whatever the worker does
      after the quit flag is set, `SignQuite` gets no answer. */
  lemma QuitAsWrittenNeverAnswers(w: Worker, es: seq<Event>)
    ensures QuitAnswer(false, Run(w.(isQuit := true), es)) == None
  {
  }

  /** With the channel made, `SignQuite` answers exactly when the worker has
      ended, and then no record is left waiting in the queue. */
  lemma QuitHandshakeAnswersWhenDrained(w: Worker, es: seq<Event>)
    requires !w.ended
    ensures var r := Run(w.(isQuit := true), es);
      && (QuitAnswer(true, r) == Some(true) <==> r.ended)
      && (r.ended ==> r.queue == [])
  {
    EndedRunHasEmptyQueue(w.(isQuit := true), es);
  }

  class AsyncKafka {
    var brokers: seq<Bytes>
    var topic: Bytes
    var version: Bytes
    var compression: int
    var requiredAcks: int
    var MaxMessageBytes: int
    const logQueue: Channel
    var isQuit: bool
    var inFlight: seq<Bytes>
    var published: seq<Bytes>
    var delivered: seq<Bytes>
    var dropped: seq<Bytes>
    var blocked: Option<Bytes>
    var ended: bool
    /** Whether the quit channel has been made; nothing in the source makes it. */
    var queueQuit: bool

    function State(): Worker
      reads this, logQueue
    {
      Worker(logQueue.items, logQueue.capacity, isQuit, inFlight, published, delivered, dropped, blocked, ended)
    }

    /** The configuration the worker never changes. */
    function Settings(): (seq<Bytes>, Bytes, Bytes, int, int, int, bool)
      reads this
    {
      (brokers, topic, version, compression, requiredAcks, MaxMessageBytes, queueQuit)
    }

    /** The producer settings of `client`: each code is read as its lookup
        function reads it (`KafkaVersionOf` states the version's), and the
        size limit is taken as it is. */
    function Config(): (c: ProducerConfig)
      reads this
      ensures 0 <= compression <= 4 ==> CompressionCode(c.compression) == compression
      ensures !(0 <= compression <= 4) ==> c.compression == CompressionNone
      ensures -1 <= requiredAcks <= 1 ==> AcksCode(c.requiredAcks) == requiredAcks
      ensures c.requiredAcks == WaitForAll <==> requiredAcks != 0 && requiredAcks != 1
      ensures c.version == KafkaVersionOf(version)
      ensures c.maxMessageBytes == MaxMessageBytes
    {
      ProducerConfig(KafkaRequiredAcks(requiredAcks), KafkaVersionOf(version), MaxMessageBytes, KafkaCompression(compression))
    }

    constructor (brokers: seq<Bytes>, topic: Bytes, version: Bytes, compression: int, acks: int,
                 maxMessageBytes: int, q: Channel)
      ensures this.brokers == brokers && this.topic == topic && this.version == version
      ensures this.compression == compression && requiredAcks == acks && MaxMessageBytes == maxMessageBytes
      ensures logQueue == q && !isQuit && inFlight == [] && published == [] && delivered == []
      ensures dropped == [] && blocked == None && !ended && !queueQuit
    {
      this.brokers, this.topic, this.version := brokers, topic, version;
      this.compression, requiredAcks, MaxMessageBytes := compression, acks, maxMessageBytes;
      logQueue := q;
      isQuit, ended, queueQuit := false, false, false;
      inFlight, published, delivered, dropped := [], [], [], [];
      blocked := None;
    }

    /** `newAsyncKafka` up to the producer: check the settings (a failed
        check panics). Connecting and starting the worker goroutine are not
        modelled; `FlushKafka` is the worker. The quit channel is left
        unmade, as in the source. */
    static method NewAsyncKafka(brokers: seq<Bytes>, topic: Bytes, version: Bytes, compression: int, acks: int,
                                maxMessageBytes: int, q: Channel)
      returns (r: Result<AsyncKafka, KafkaPanic>)
      ensures var c := CheckConfig(brokers, topic, maxMessageBytes);
        && (r.Ok? <==> c.Ok?)
        && (r.Err? ==> r.error == c.error)
        && (r.Ok? ==> fresh(r.value) && r.value.logQueue == q
                      && r.value.brokers == brokers && r.value.topic == topic && r.value.version == version
                      && r.value.compression == compression && r.value.requiredAcks == acks
                      && r.value.MaxMessageBytes == c.value && !r.value.queueQuit
                      && r.value.State() == Worker(q.items, q.capacity, false, [], [], [], [], None, false))
    {
      var c := new AsyncKafka(brokers, topic, version, compression, acks, maxMessageBytes, q);
      var err := c.Check();
      if err.Some? {
        return Err(err.value);
      }
      r := Ok(c);
    }

    /** `check`. */
    method Check() returns (err: Option<KafkaPanic>)
      modifies this
      ensures var c := CheckConfig(old(brokers), old(topic), old(MaxMessageBytes));
        && (c.Err? ==> err == Some(c.error))
        && (c.Ok? ==> err == None && MaxMessageBytes == c.value)
      ensures brokers == old(brokers) && topic == old(topic) && version == old(version)
      ensures compression == old(compression) && requiredAcks == old(requiredAcks)
      ensures State() == old(State()) && queueQuit == old(queueQuit)
    {
      if |brokers| == 0 {
        return Some(BrokersEmpty);
      }
      if topic == [] {
        return Some(TopicEmpty);
      }
      if MaxMessageBytes == 0 {
        MaxMessageBytes := DefaultMaxMessageBytes;
      }
      err := None;
    }

    /** One turn of the loop of `flushKafka`. */
    method HandleEvent(e: Event)
      modifies this, logQueue
      ensures State() == Step(old(State()), e)
      ensures Settings() == old(Settings())
    {
      if ended || blocked.Some? {
        return;
      }
      match e
      case Record =>
        if logQueue.items != [] {
          var logBody := logQueue.Receive();
          inFlight := inFlight + [logBody];
          published := published + [logBody];
        }
      case Success(k) =>
        if k < |inFlight| {
          delivered := delivered + [inFlight[k]];
          inFlight := Remove(inFlight, k);
          if isQuit && logQueue.Len() == 0 {
            ended := true;
          }
        }
      case Error(k) =>
        if k < |inFlight| {
          var msg := inFlight[k];
          inFlight := Remove(inFlight, k);
          if isQuit {
            dropped := dropped + [msg];
            if logQueue.Len() == 0 {
              ended := true;
            }
          } else if logQueue.Len() < logQueue.capacity {
            logQueue.Send(msg);
          } else {
            blocked := Some(msg);
          }
        }
    }

    /** `flushKafka` over the events `es`, stopping at the end of the loop. */
    method FlushKafka(es: seq<Event>)
      modifies this, logQueue
      ensures State() == Run(old(State()), es)
      ensures Settings() == old(Settings())
    {
      var i := 0;
      while i < |es| && !ended
        invariant 0 <= i <= |es|
        invariant State() == Run(old(State()), es[..i])
        invariant Settings() == old(Settings())
      {
        HandleEvent(es[i]);
        RunAppend(old(State()), es[..i], es[i]);
        assert es[..i + 1] == es[..i] + [es[i]];
        i := i + 1;
      }
      if i < |es| {
        RunSplit(old(State()), es[..i], es[i..]);
        assert es[..i] + es[i..] == es;
      } else {
        assert es[..i] == es;
      }
    }

    /** `SignQuite`: set the quit flag and wait on the quit channel while
        the worker serves `es`. The answer is `QuitAnswer`: `None` while the
        receive would still be waiting, which is always so while the
        channel is unmade. */
    method SignQuite(es: seq<Event>) returns (r: Option<bool>)
      modifies this, logQueue
      ensures isQuit && Settings() == old(Settings())
      ensures State() == Run(old(State()).(isQuit := true), es)
      ensures r == QuitAnswer(queueQuit, State())
    {
      isQuit := true;
      FlushKafka(es);
      r := if queueQuit && ended then Some(true) else None;
    }
  }

  lemma {:induction false} RunSplit(w: Worker, es1: seq<Event>, es2: seq<Event>)
    ensures Run(w, es1 + es2) == Run(Run(w, es1), es2)
    decreases |es1|
  {
    if es1 != [] {
      assert (es1 + es2)[1..] == es1[1..] + es2;
      RunSplit(Step(w, es1[0]), es1[1..], es2);
    } else {
      assert es1 + es2 == es2;
    }
  }
}
