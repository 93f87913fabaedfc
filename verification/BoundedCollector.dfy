/** The loop that collects the output of a sandboxed process under a time and a
    size limit. */
module BoundedCollector {
  import opened Basics

  type Bytes = seq<bv8>

  datatype RunStatus = Pass | Fails | TimedOut | OutputExhausted

  datatype Stream = Stdout | Stderr

  /** One readable stream in a round, and the most that read() will return. */
  datatype Read = Read(stream: Stream, size: nat)

  /** A round of the select loop: the deadline has passed, or some streams are readable. */
  datatype Round = Late | Ready(batch: seq<Read>)

  function Flatten(chunks: seq<Bytes>): Bytes {
    if |chunks| == 0 then [] else Flatten(chunks[..|chunks| - 1]) + chunks[|chunks| - 1]
  }

  lemma FlattenSnoc(chunks: seq<Bytes>, data: Bytes)
    ensures Flatten(chunks + [data]) == Flatten(chunks) + data
  {}

  /** A stream and what was taken from it: `full` is all the process writes to it
      before closing it, `registered` says whether it is still selected. */
  datatype Channel = Channel(full: Bytes, position: nat, registered: bool, chunks: seq<Bytes>)

  predicate ChannelOk(c: Channel) {
    c.position <= |c.full| && Flatten(c.chunks) == c.full[..c.position] && (!c.registered ==> c.position == |c.full|)
  }

  /** What read() returns: at least one byte, unless the stream is at its end. */
  function NextData(c: Channel, size: nat): (data: Bytes)
    requires ChannelOk(c)
    ensures data <= c.full[c.position..] && (data == [] <==> c.position == |c.full|)
  {
    var left := |c.full| - c.position;
    var n := if size == 0 then 1 else if size > 65536 then 65536 else size;
    c.full[c.position..c.position + if n <= left then n else left]
  }

  function Opened(full: Bytes): Channel { Channel(full, 0, true, []) }

  // ---- what the loop does, round by round ----

  datatype Collector = Collector(stdout: Channel, stderr: Channel, total: nat, forced: Option<RunStatus>)

  function Of(c: Collector, s: Stream): Channel { if s.Stdout? then c.stdout else c.stderr }

  function With(c: Collector, s: Stream, ch: Channel): Collector {
    if s.Stdout? then c.(stdout := ch) else c.(stderr := ch)
  }

  predicate CollectorOk(c: Collector) { ChannelOk(c.stdout) && ChannelOk(c.stderr) }

  predicate SameStreams(c: Collector, c': Collector) {
    c'.stdout.full == c.stdout.full && c'.stderr.full == c.stderr.full
  }

  predicate Active(c: Collector) { c.forced.None? && (c.stdout.registered || c.stderr.registered) }

  /** The channel after `data` was taken from it. */
  function Take(ch: Channel, data: Bytes): (ch': Channel)
    requires ChannelOk(ch) && data <= ch.full[ch.position..]
    ensures ChannelOk(ch') && ch'.full == ch.full
  {
    FlattenSnoc(ch.chunks, data);
    assert ch.full[..ch.position + |data|] == ch.full[..ch.position] + data;
    ch.(position := ch.position + |data|, chunks := ch.chunks + [data])
  }

  /** An empty read ends a stream; a read past the limit is not kept. */
  function TakeRead(c: Collector, read: Read, maximum: nat): (c': Collector)
    requires CollectorOk(c)
    ensures CollectorOk(c') && SameStreams(c, c')
  {
    var ch := Of(c, read.stream);
    if c.forced.Some? || !ch.registered then c
    else
      var data := NextData(ch, read.size);
      if data == [] then With(c, read.stream, ch.(registered := false))
      else if c.total + |data| > maximum then c.(total := c.total + |data|, forced := Some(OutputExhausted))
      else With(c, read.stream, Take(ch, data)).(total := c.total + |data|)
  }

  function TakeReads(c: Collector, batch: seq<Read>, maximum: nat): (c': Collector)
    requires CollectorOk(c)
    ensures CollectorOk(c') && SameStreams(c, c')
  {
    if |batch| == 0 then c else TakeRead(TakeReads(c, batch[..|batch| - 1], maximum), batch[|batch| - 1], maximum)
  }

  function TakeRound(c: Collector, round: Round, maximum: nat): (c': Collector)
    requires CollectorOk(c)
    ensures CollectorOk(c') && SameStreams(c, c')
  {
    if !Active(c) then c
    else match round
      case Late => c.(forced := Some(TimedOut))
      case Ready(batch) => TakeReads(c, batch, maximum)
  }

  /** When a schedule ends with a stream still open, only the deadline is left. */
  function TakeRounds(c: Collector, rounds: seq<Round>, maximum: nat): (c': Collector)
    requires CollectorOk(c)
    ensures CollectorOk(c') && SameStreams(c, c') && !Active(c')
    decreases |rounds|
  {
    if |rounds| == 0 then TakeRound(c, Late, maximum)
    else TakeRounds(TakeRound(c, rounds[0], maximum), rounds[1..], maximum)
  }

  function Opening(stdout: Bytes, stderr: Bytes): (c: Collector)
    ensures CollectorOk(c)
  {
    Collector(Opened(stdout), Opened(stderr), 0, None)
  }

  function Collected(stdout: Bytes, stderr: Bytes, rounds: seq<Round>, maximum: nat): (c: Collector)
    ensures CollectorOk(c) && !Active(c) && c.stdout.full == stdout && c.stderr.full == stderr
  {
    TakeRounds(Opening(stdout, stderr), rounds, maximum)
  }

  function Status(c: Collector, rc: int): RunStatus {
    if c.forced.Some? then c.forced.value else if rc == 0 then Pass else Fails
  }

  // ---- the loop ----

  lemma {:induction false} ForcedTakesNothing(c: Collector, batch: seq<Read>, k: nat, maximum: nat)
    requires CollectorOk(c) && k <= |batch| && TakeReads(c, batch[..k], maximum).forced.Some?
    ensures TakeReads(c, batch, maximum) == TakeReads(c, batch[..k], maximum)
  {
    if k < |batch| {
      var rest := batch[..|batch| - 1];
      assert rest[..k] == batch[..k];
      ForcedTakesNothing(c, rest, k, maximum);
    } else {
      assert batch[..k] == batch;
    }
  }

  lemma {:induction false} InactiveTakesNothing(c: Collector, rounds: seq<Round>, maximum: nat)
    requires CollectorOk(c) && !Active(c)
    ensures TakeRounds(c, rounds, maximum) == c
    decreases |rounds|
  {
    if |rounds| > 0 { InactiveTakesNothing(c, rounds[1..], maximum); }
  }

  lemma TakeReadsNext(c: Collector, batch: seq<Read>, k: nat, maximum: nat)
    requires CollectorOk(c) && k < |batch|
    ensures TakeReads(c, batch[..k + 1], maximum) == TakeRead(TakeReads(c, batch[..k], maximum), batch[k], maximum)
  {
    assert batch[..k + 1][..k] == batch[..k];
  }

  /** The streams of one round, in the order select() returned them. */
  method ReadRound(start: Collector, batch: seq<Read>, maximum: nat) returns (c: Collector)
    requires CollectorOk(start) && start.forced.None?
    ensures c == TakeReads(start, batch, maximum)
  {
    c := start;
    for k := 0 to |batch|
      invariant c.forced.None? && c == TakeReads(start, batch[..k], maximum)
    {
      TakeReadsNext(start, batch, k, maximum);
      var ch := Of(c, batch[k].stream);
      if !ch.registered { continue; }
      var data := NextData(ch, batch[k].size);
      if data == [] {
        c := With(c, batch[k].stream, ch.(registered := false));
        continue;
      }
      var total := c.total + |data|;
      if total > maximum {
        ForcedTakesNothing(start, batch, k + 1, maximum);
        return c.(total := total, forced := Some(OutputExhausted));
      }
      c := With(c, batch[k].stream, Take(ch, data)).(total := total);
    }
    assert batch[..|batch|] == batch;
  }

  /** collect_bounded: status and captured outputs are those of the rounds taken one after the other. */
  method CollectBounded(stdout: Bytes, stderr: Bytes, rounds: seq<Round>, maximum: nat, rc: int)
    returns (status: RunStatus, out: Bytes, err: Bytes)
    ensures var c := Collected(stdout, stderr, rounds, maximum);
            && status == Status(c, rc)
            && out == stdout[..c.stdout.position] && err == stderr[..c.stderr.position]
    ensures status == Pass ==> rc == 0 && out == stdout && err == stderr
    ensures status == Fails ==> rc != 0 && out == stdout && err == stderr
  {
    var c := Opening(stdout, stderr);
    var i := 0;
    while Active(c)
      invariant i <= |rounds| && CollectorOk(c)
      invariant TakeRounds(c, rounds[i..], maximum) == Collected(stdout, stderr, rounds, maximum)
      decreases |rounds| - i
    {
      if i == |rounds| || rounds[i].Late? {
        c := c.(forced := Some(TimedOut));
        InactiveTakesNothing(c, rounds[i..], maximum);
        InactiveTakesNothing(c, if i == |rounds| then [] else rounds[i + 1..], maximum);
        break;
      }
      c := ReadRound(c, rounds[i].batch, maximum);
      i := i + 1;
    }
    InactiveTakesNothing(c, rounds[i..], maximum);
    status := Status(c, rc);
    out := Flatten(c.stdout.chunks);
    err := Flatten(c.stderr.chunks);
    RoundsWithin(Opening(stdout, stderr), rounds, maximum);
  }

  // ---- what is captured ----

  /** `total` counts what was captured; it passes the limit only when a read was
      refused, and then the process wrote more than the limit. */
  predicate Within(c: Collector, maximum: nat) {
    && c.stdout.position + c.stderr.position <= maximum
    && (c.forced == Some(OutputExhausted) ==> |c.stdout.full| + |c.stderr.full| > maximum)
    && (c.forced != Some(OutputExhausted) ==> c.total == c.stdout.position + c.stderr.position)
    && c.forced in {None, Some(TimedOut), Some(OutputExhausted)}
  }

  lemma ReadWithin(c: Collector, read: Read, maximum: nat)
    requires CollectorOk(c) && Within(c, maximum)
    ensures Within(TakeRead(c, read, maximum), maximum)
  {}

  lemma {:induction false} ReadsWithin(c: Collector, batch: seq<Read>, maximum: nat)
    requires CollectorOk(c) && Within(c, maximum)
    ensures Within(TakeReads(c, batch, maximum), maximum)
  {
    if |batch| > 0 {
      ReadsWithin(c, batch[..|batch| - 1], maximum);
      ReadWithin(TakeReads(c, batch[..|batch| - 1], maximum), batch[|batch| - 1], maximum);
    }
  }

  lemma {:induction false} RoundsWithin(c: Collector, rounds: seq<Round>, maximum: nat)
    requires CollectorOk(c) && Within(c, maximum)
    ensures Within(TakeRounds(c, rounds, maximum), maximum)
    decreases |rounds|
  {
    if |rounds| > 0 {
      if rounds[0].Ready? { ReadsWithin(c, rounds[0].batch, maximum); }
      RoundsWithin(TakeRound(c, rounds[0], maximum), rounds[1..], maximum);
    }
  }

  /** Whatever is readable when, the captured outputs are prefixes of the two
      streams with at most `maximum` bytes together; a run reported as pass or
      fail was captured whole; and a process that writes more than `maximum`
      bytes is never reported as pass or fail, one that does not never as
      output_exhausted. */
  lemma CollectedIsBounded(stdout: Bytes, stderr: Bytes, rounds: seq<Round>, maximum: nat, rc: int)
    ensures var c := Collected(stdout, stderr, rounds, maximum);
            && Flatten(c.stdout.chunks) <= stdout && Flatten(c.stderr.chunks) <= stderr
            && |Flatten(c.stdout.chunks)| + |Flatten(c.stderr.chunks)| <= maximum
            && (Status(c, rc) in {Pass, Fails} ==>
                  Flatten(c.stdout.chunks) == stdout && Flatten(c.stderr.chunks) == stderr)
            && (Status(c, rc) == OutputExhausted ==> |stdout| + |stderr| > maximum)
            && (|stdout| + |stderr| > maximum ==> Status(c, rc) in {TimedOut, OutputExhausted})
  {
    RoundsWithin(Opening(stdout, stderr), rounds, maximum);
  }

  // ---- how a run ends that meets no deadline ----

  function ReadsIn(batch: seq<Read>, s: Stream): nat {
    if |batch| == 0 then 0
    else ReadsIn(batch[..|batch| - 1], s) + if batch[|batch| - 1].stream == s then 1 else 0
  }

  /** How often the loop is offered stream `s`. */
  function ReadsOf(rounds: seq<Round>, s: Stream): nat {
    if |rounds| == 0 then 0
    else (match rounds[0] case Late => 0 case Ready(batch) => ReadsIn(batch, s)) + ReadsOf(rounds[1..], s)
  }

  /** The reads that end a stream at the latest, as each takes a byte or finds the end. */
  function Needed(ch: Channel): int { if ch.registered then |ch.full| - ch.position + 1 else 0 }

  /** Either the limit is hit, or the stream gets nearer to its end by `offers`. */
  predicate Nearer(c: Collector, c': Collector, s: Stream, offers: nat) {
    c'.forced == Some(OutputExhausted) || (c'.forced.None? && Needed(Of(c', s)) <= Needed(Of(c, s)) - offers)
    || (c'.forced.None? && !Of(c', s).registered)
  }

  lemma ReadNearer(c: Collector, read: Read, maximum: nat, s: Stream)
    requires CollectorOk(c) && c.forced.None?
    ensures Nearer(c, TakeRead(c, read, maximum), s, if read.stream == s then 1 else 0)
    ensures !Of(c, s).registered ==> !Of(TakeRead(c, read, maximum), s).registered
  {}

  lemma {:induction false} ReadsNearer(c: Collector, batch: seq<Read>, maximum: nat, s: Stream)
    requires CollectorOk(c) && c.forced.None?
    ensures Nearer(c, TakeReads(c, batch, maximum), s, ReadsIn(batch, s))
    ensures !Of(c, s).registered ==> !Of(TakeReads(c, batch, maximum), s).registered
  {
    if |batch| > 0 {
      var before := TakeReads(c, batch[..|batch| - 1], maximum);
      ReadsNearer(c, batch[..|batch| - 1], maximum, s);
      if before.forced.None? { ReadNearer(before, batch[|batch| - 1], maximum, s); }
    }
  }

  predicate Timely(rounds: seq<Round>) { forall i :: 0 <= i < |rounds| ==> rounds[i].Ready? }

  lemma {:induction false} TimelyEnds(c: Collector, rounds: seq<Round>, maximum: nat)
    requires CollectorOk(c) && Timely(rounds) && c.forced in {None, Some(OutputExhausted)}
    requires c.forced.None? ==>
               Needed(c.stdout) <= ReadsOf(rounds, Stdout) && Needed(c.stderr) <= ReadsOf(rounds, Stderr)
    ensures TakeRounds(c, rounds, maximum).forced != Some(TimedOut)
    decreases |rounds|
  {
    if !Active(c) {
      InactiveTakesNothing(c, rounds, maximum);
    } else if |rounds| > 0 {
      ReadsNearer(c, rounds[0].batch, maximum, Stdout);
      ReadsNearer(c, rounds[0].batch, maximum, Stderr);
      TimelyEnds(TakeRound(c, rounds[0], maximum), rounds[1..], maximum);
    }
  }

  /** If no deadline passes and each stream is offered often enough to be read to
      its end, the limit decides, and then the exit code alone. */
  lemma DecidedInTime(stdout: Bytes, stderr: Bytes, rounds: seq<Round>, maximum: nat, rc: int)
    requires Timely(rounds) && ReadsOf(rounds, Stdout) > |stdout| && ReadsOf(rounds, Stderr) > |stderr|
    ensures Status(Collected(stdout, stderr, rounds, maximum), rc) ==
              if |stdout| + |stderr| > maximum then OutputExhausted else if rc == 0 then Pass else Fails
  {
    TimelyEnds(Opening(stdout, stderr), rounds, maximum);
    RoundsWithin(Opening(stdout, stderr), rounds, maximum);
  }

  /** A run that was not cut short is a pass if and only if the process exits with 0. */
  lemma PassIffExitZero(stdout: Bytes, stderr: Bytes, rounds: seq<Round>, maximum: nat, rc: int)
    ensures var status := Status(Collected(stdout, stderr, rounds, maximum), rc);
            && (status == Pass ==> rc == 0) && (status == Fails ==> rc != 0)
            && (status !in {TimedOut, OutputExhausted} ==> (status == Pass <==> rc == 0))
  {
    RoundsWithin(Opening(stdout, stderr), rounds, maximum);
  }
}
