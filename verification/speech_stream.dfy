/** From the network to one gapless buffer: the packet loop, chunk numbering and reassembly. */
module SpeechStream {
  import opened Domain
  import opened Text
  import opened Packets

  /** Hard limits shared by all requests of a process. */
  class SynthesisBudget {
    const maximumAudioSeconds: real
    const maximumInputCharacters: nat
    var submittedCharacters: nat
    var generatedAudioSeconds: real

    constructor (maximumAudioSeconds: real, maximumInputCharacters: nat)
      ensures this.maximumAudioSeconds == maximumAudioSeconds
      ensures this.maximumInputCharacters == maximumInputCharacters
      ensures submittedCharacters == 0 && generatedAudioSeconds == 0.0
    {
      this.maximumAudioSeconds, this.maximumInputCharacters := maximumAudioSeconds, maximumInputCharacters;
      submittedCharacters, generatedAudioSeconds := 0, 0.0;
    }

    /** Reserves the characters of a text, or refuses without any effect. */
    method Reserve(text: string) returns (ok: bool)
      modifies this`submittedCharacters
      ensures ok <==> 1 <= |text| <= maximumInputCharacters - old(submittedCharacters)
      ensures submittedCharacters == old(submittedCharacters) + if ok then |text| else 0
    {
      ok := |text| >= 1 && submittedCharacters + |text| <= maximumInputCharacters;
      if ok { submittedCharacters := submittedCharacters + |text|; }
    }

    predicate CanEmit(pcmBytes: nat)
      reads this
      ensures CanEmit(pcmBytes) <==> Packets.CanEmit(generatedAudioSeconds, maximumAudioSeconds, pcmBytes)
    {
      generatedAudioSeconds + pcmBytes as real / 2.0 / 16_000.0 <= maximumAudioSeconds
    }

    method RecordAudio(pcmBytes: nat)
      modifies this`generatedAudioSeconds
      ensures generatedAudioSeconds == old(generatedAudioSeconds) + Seconds(pcmBytes)
    {
      generatedAudioSeconds := generatedAudioSeconds + pcmBytes as real / 2.0 / 16_000.0;
    }
  }

  /** How reading a response ends; a cancelled one just stops. */
  datatype Ending = Finished(outcome: Outcome) | Stopped(packets: seq<Packet>)

  /** The cancel event is set from the `cancelAt`-th time that the loop looks at it. */
  function ReadUntil(t: Targets, maximum: real, generated: real, pieces: seq<Bytes>, cancelAt: nat): Ending
    requires t.Valid()
  {
    if cancelAt > |pieces| then Finished(Read(t, maximum, generated, pieces))
    else
      var r := FeedAll(t, maximum, Ready(t, generated), pieces[..cancelAt]);
      if r.exhausted then Finished(Exhausted(r.packets)) else Stopped(r.packets)
  }

  /** What the budget has recorded afterwards. */
  function Spent(t: Targets, maximum: real, generated: real, pieces: seq<Bytes>, cancelAt: nat): real
    requires t.Valid()
  {
    if cancelAt > |pieces| then Flush(t, maximum, FeedAll(t, maximum, Ready(t, generated), pieces)).generated
    else FeedAll(t, maximum, Ready(t, generated), pieces[..cancelAt]).generated
  }

  /** The packet loop on a growing buffer. */
  method ReadResponse(t: Targets, budget: SynthesisBudget, pieces: seq<Bytes>, cancelAt: nat) returns (ending: Ending)
    requires t.Valid()
    modifies budget`generatedAudioSeconds
    ensures ending == ReadUntil(t, budget.maximumAudioSeconds, old(budget.generatedAudioSeconds), pieces, cancelAt)
    ensures budget.generatedAudioSeconds
            == Spent(t, budget.maximumAudioSeconds, old(budget.generatedAudioSeconds), pieces, cancelAt)
  {
    hide Drain, FeedAll, ReadUntil, Spent, Seconds, Packets.CanEmit, Targets.First, Targets.Following;
    TargetsEven(t);
    ghost var maximum, generated := budget.maximumAudioSeconds, budget.generatedAudioSeconds;
    ghost var start := Ready(t, generated);
    var buffer: Bytes, queue: seq<Packet>, target := [], [], t.First();
    assert FeedAll(t, maximum, start, pieces[..0]) == start by { FeedNothing(t, maximum, start); }
    var i := 0;
    while i < |pieces| && i < cancelAt
      invariant i <= |pieces| && i <= cancelAt && target >= 640
      invariant FeedAll(t, maximum, start, pieces[..i])
                == Reader(buffer, queue, target, budget.generatedAudioSeconds, false)
    {
      var data := pieces[i];
      FeedNext(t, maximum, start, pieces, i);
      i := i + 1;
      if data == [] { continue; }
      buffer := buffer + data;
      if |buffer| % 2 == 1 { continue; }
      ghost var drained := Drain(t, maximum, Reader(buffer, queue, target, budget.generatedAudioSeconds, false));
      while |buffer| > target
        invariant target >= 640
        invariant Drain(t, maximum, Reader(buffer, queue, target, budget.generatedAudioSeconds, false)) == drained
        decreases |buffer|
      {
        DrainOnce(t, maximum, Reader(buffer, queue, target, budget.generatedAudioSeconds, false));
        var packet := buffer[..target];
        buffer := buffer[target..];
        if !budget.CanEmit(|packet|) {
          EndsExhausted(t, maximum, generated, pieces, cancelAt, i);
          return Finished(Exhausted(queue));
        }
        budget.RecordAudio(|packet|);
        queue := queue + [Packet(packet, false)];
        target := t.Following();
      }
      DrainDone(t, maximum, Reader(buffer, queue, target, budget.generatedAudioSeconds, false));
    }
    if cancelAt <= |pieces| {
      EndsCancelled(t, maximum, generated, pieces, cancelAt);
      return Stopped(queue);
    }
    EndsFlushed(t, maximum, generated, pieces, cancelAt);
    assert pieces[..i] == pieces;
    if |buffer| % 2 == 1 { buffer := buffer[..|buffer| - 1]; }
    if buffer != [] {
      assert buffer[..|buffer|] == buffer;
      if !budget.CanEmit(|buffer|) { return Finished(Exhausted(queue)); }
      budget.RecordAudio(|buffer|);
      queue := queue + [Packet(buffer, true)];
    }
    ending := Finished(if queue == [] then NoAudio else Streamed(queue));
  }

  lemma FeedNothing(t: Targets, maximum: real, start: Reader)
    requires t.Valid() && start.target >= 640
    ensures FeedAll(t, maximum, start, []) == start
  {
  }

  lemma FeedNext(t: Targets, maximum: real, start: Reader, pieces: seq<Bytes>, i: nat)
    requires t.Valid() && start.target >= 640 && i < |pieces|
    ensures FeedAll(t, maximum, start, pieces[..i + 1]) == Feed(t, maximum, FeedAll(t, maximum, start, pieces[..i]), pieces[i])
  {
    assert pieces[..i + 1][..i] == pieces[..i];
  }

  /** A budget that ends within some pieces ends the whole response there, cancelled or not. */
  lemma EndsExhausted(t: Targets, maximum: real, generated: real, pieces: seq<Bytes>, cancelAt: nat, i: nat)
    requires t.Valid() && t.First() >= 640 && i <= |pieces| && i <= cancelAt
    requires FeedAll(t, maximum, Ready(t, generated), pieces[..i]).exhausted
    ensures var r := FeedAll(t, maximum, Ready(t, generated), pieces[..i]);
      && ReadUntil(t, maximum, generated, pieces, cancelAt) == Finished(Exhausted(r.packets))
      && Spent(t, maximum, generated, pieces, cancelAt) == r.generated
  {
    hide FeedAll;
    if cancelAt <= |pieces| {
      assert pieces[..cancelAt][..i] == pieces[..i];
      ExhaustedStays(t, maximum, Ready(t, generated), pieces[..cancelAt], i);
    } else {
      ExhaustedStays(t, maximum, Ready(t, generated), pieces, i);
    }
  }

  lemma EndsCancelled(t: Targets, maximum: real, generated: real, pieces: seq<Bytes>, cancelAt: nat)
    requires t.Valid() && t.First() >= 640 && cancelAt <= |pieces|
    requires !FeedAll(t, maximum, Ready(t, generated), pieces[..cancelAt]).exhausted
    ensures var r := FeedAll(t, maximum, Ready(t, generated), pieces[..cancelAt]);
      && ReadUntil(t, maximum, generated, pieces, cancelAt) == Stopped(r.packets)
      && Spent(t, maximum, generated, pieces, cancelAt) == r.generated
  {
    hide FeedAll;
  }

  lemma EndsFlushed(t: Targets, maximum: real, generated: real, pieces: seq<Bytes>, cancelAt: nat)
    requires t.Valid() && t.First() >= 640 && cancelAt > |pieces|
    ensures var r := Flush(t, maximum, FeedAll(t, maximum, Ready(t, generated), pieces));
      && ReadUntil(t, maximum, generated, pieces, cancelAt)
         == Finished(if r.exhausted then Exhausted(r.packets) else if r.packets == [] then NoAudio else Streamed(r.packets))
      && Spent(t, maximum, generated, pieces, cancelAt) == r.generated
  {
    hide FeedAll, Flush;
  }

  lemma DrainOnce(t: Targets, maximum: real, r: Reader)
    requires t.Valid() && r.target >= 640 && !r.exhausted && |r.buffer| > r.target
    ensures t.Following() >= 640
    ensures if CanEmit(r.generated, maximum, r.target)
            then Drain(t, maximum, r)
                 == Drain(t, maximum, Reader(r.buffer[r.target..], r.packets + [Packet(r.buffer[..r.target], false)],
                                             t.Following(), r.generated + Seconds(r.target), false))
            else Drain(t, maximum, r) == r.(buffer := r.buffer[r.target..], exhausted := true)
  {
    TargetsEven(t);
  }

  lemma DrainDone(t: Targets, maximum: real, r: Reader)
    requires t.Valid() && r.target >= 640 && |r.buffer| <= r.target
    ensures Drain(t, maximum, r) == r
  {
  }

  /** Nothing is read after the budget is exhausted. */
  lemma {:induction false} ExhaustedStays(t: Targets, maximum: real, r: Reader, pieces: seq<Bytes>, i: nat)
    requires t.Valid() && r.target >= 640 && i <= |pieces| && FeedAll(t, maximum, r, pieces[..i]).exhausted
    ensures FeedAll(t, maximum, r, pieces) == FeedAll(t, maximum, r, pieces[..i])
  {
    if i == |pieces| {
      assert pieces[..i] == pieces;
    } else {
      var front := pieces[..|pieces| - 1];
      assert front[..i] == pieces[..i];
      ExhaustedStays(t, maximum, r, front, i);
    }
  }

  // ----- chunks of one request, and their reassembly -----

  datatype Request = Request(text: string, responseId: string, sequenceStart: nat, displayText: Option<string>) {
    /** What the request's own validation demands. */
    predicate Valid() { Strip(text) != "" && (displayText.Some? ==> Strip(displayText.value) != "") }

    function Shown(): string { if displayText.Some? then displayText.value else text }
  }

  /** `source` stands for sample rate, channels, provider and model of a chunk. */
  datatype Chunk = Chunk(
    chunkId: string, responseId: string, text: string, semanticText: string, sequence: nat, pcm: Bytes,
    boundary: bool, browser: bool, source: string)

  /** A chunk strips its semantic text when it is made; only the final one carries text. */
  function ChunkOf(q: Request, id: string, i: nat, p: Packet, source: string): Chunk {
    Chunk(id, q.responseId, if p.final then q.Shown() else "", Strip(q.text), q.sequenceStart + i, p.pcm, p.final,
          false, source)
  }

  function ChunksOf(q: Request, ids: seq<string>, packets: seq<Packet>, source: string): (cs: seq<Chunk>)
    requires |ids| == |packets|
    ensures |cs| == |packets|
  {
    if packets == [] then []
    else
      var n := |packets| - 1;
      ChunksOf(q, ids[..n], packets[..n], source) + [ChunkOf(q, ids[n], n, packets[n], source)]
  }

  lemma {:induction false} ChunkAt(q: Request, ids: seq<string>, packets: seq<Packet>, source: string, i: nat)
    requires |ids| == |packets| && i < |packets|
    ensures ChunksOf(q, ids, packets, source)[i] == ChunkOf(q, ids[i], i, packets[i], source)
  {
    hide ChunkOf;
    var n := |packets| - 1;
    if i < n { ChunkAt(q, ids[..n], packets[..n], source, i); }
  }

  lemma ChunksAt(q: Request, ids: seq<string>, packets: seq<Packet>, source: string)
    requires |ids| == |packets|
    ensures forall i | 0 <= i < |packets| ::
      ChunksOf(q, ids, packets, source)[i] == ChunkOf(q, ids[i], i, packets[i], source)
  {
    hide ChunkOf, ChunksOf;
    forall i | 0 <= i < |packets|
      ensures ChunksOf(q, ids, packets, source)[i] == ChunkOf(q, ids[i], i, packets[i], source)
    {
      ChunkAt(q, ids, packets, source, i);
    }
  }

  datatype GaplessError =
    | DuplicateChunkId | DuplicateSequence | StaleResponseId | NonContiguous | MultipleModes | ManyBrowserChunks
    | InconsistentMetadata | MissingBoundary

  function IdsOf(chunks: seq<Chunk>): set<string> { set c | c in chunks :: c.chunkId }

  function SequencesOf(chunks: seq<Chunk>): set<nat> { set c | c in chunks :: c.sequence }

  /** The first objection to a chunk, given the chunks before it. */
  function Objection(q: Request, before: seq<Chunk>, c: Chunk): Option<GaplessError> {
    if c.chunkId in IdsOf(before) then Some(DuplicateChunkId)
    else if c.sequence in SequencesOf(before) then Some(DuplicateSequence)
    else if c.responseId != q.responseId then Some(StaleResponseId)
    else if c.sequence != q.sequenceStart + |before| then Some(NonContiguous)
    else None
  }

  function FirstObjection(q: Request, chunks: seq<Chunk>): Option<GaplessError> {
    if chunks == [] then None
    else
      var last := |chunks| - 1;
      var earlier := FirstObjection(q, chunks[..last]);
      if earlier.Some? then earlier else Objection(q, chunks[..last], chunks[last])
  }

  function PcmOf(chunks: seq<Chunk>): Bytes {
    if chunks == [] then [] else PcmOf(chunks[..|chunks| - 1]) + chunks[|chunks| - 1].pcm
  }

  /** The one buffer that replaces the transport chunks of a segment. */
  function Gapless(q: Request, id: string, chunks: seq<Chunk>): Chunk
    requires chunks != []
  {
    Chunk(id, q.responseId, q.Shown(), Strip(q.text), q.sequenceStart, PcmOf(chunks), true, false, chunks[0].source)
  }

  function Reassemble(q: Request, id: string, chunks: seq<Chunk>): Result<seq<Chunk>, GaplessError> {
    var objection := FirstObjection(q, chunks);
    if objection.Some? then Err(objection.value)
    else if chunks == [] then Ok([])
    else if exists c | c in chunks :: c.browser != chunks[0].browser then Err(MultipleModes)
    else if chunks[0].browser then if |chunks| != 1 then Err(ManyBrowserChunks) else Ok(chunks)
    else if exists c | c in chunks :: c.source != chunks[0].source then Err(InconsistentMetadata)
    else
      var last := chunks[|chunks| - 1];
      if !last.boundary || last.semanticText != q.text then Err(MissingBoundary)
      else Ok([Gapless(q, id, chunks)])
  }

  /** Collecting a segment; a cancellation yields nothing. */
  method StreamGapless(q: Request, id: string, stream: seq<Chunk>, cancelAt: nat)
    returns (result: Result<seq<Chunk>, GaplessError>)
    ensures cancelAt > |stream| ==> result == Reassemble(q, id, stream)
    ensures cancelAt <= |stream| ==>
              result == match FirstObjection(q, stream[..cancelAt]) case Some(e) => Err(e) case None => Ok([])
  {
    hide IdsOf, SequencesOf, Strip, FirstObjection, PcmOf;
    StartOfSegment(q);
    ghost var seen := if cancelAt <= |stream| then stream[..cancelAt] else stream;
    var chunks: seq<Chunk>, seenIds: set<string>, seenSequences: set<nat> := [], {}, {};
    var expected := q.sequenceStart;
    var pcm: Bytes := [];
    var i := 0;
    while i < |stream| && i < cancelAt
      invariant i <= |stream| && i <= cancelAt && chunks == stream[..i] == seen[..i]
      invariant FirstObjection(q, chunks).None?
      invariant expected == q.sequenceStart + i && pcm == PcmOf(chunks)
      invariant seenIds == IdsOf(chunks) && seenSequences == SequencesOf(chunks)
    {
      var chunk := stream[i];
      NextChunk(q, seen, i);
      if chunk.chunkId in seenIds { return Err(DuplicateChunkId); }
      if chunk.sequence in seenSequences { return Err(DuplicateSequence); }
      if chunk.responseId != q.responseId { return Err(StaleResponseId); }
      if chunk.sequence != expected { return Err(NonContiguous); }
      SetsGrow(chunks, chunk);
      seenIds, seenSequences, expected := seenIds + {chunk.chunkId}, seenSequences + {chunk.sequence}, expected + 1;
      chunks, pcm := chunks + [chunk], pcm + chunk.pcm;
      i := i + 1;
    }
    assert seen[..i] == seen;
    if cancelAt <= |stream| || chunks == [] { return Ok([]); }
    if exists k | 0 <= k < |chunks| :: chunks[k].browser != chunks[0].browser { return Err(MultipleModes); }
    assert forall c | c in chunks :: c.browser == chunks[0].browser;
    if chunks[0].browser { return if |chunks| != 1 then Err(ManyBrowserChunks) else Ok(chunks); }
    if exists k | 0 <= k < |chunks| :: chunks[k].source != chunks[0].source { return Err(InconsistentMetadata); }
    assert forall c | c in chunks :: c.source == chunks[0].source;
    var last := chunks[|chunks| - 1];
    if !last.boundary || last.semanticText != q.text { return Err(MissingBoundary); }
    result := Ok([Chunk(id, q.responseId, q.Shown(), Strip(q.text), q.sequenceStart, pcm, true, false, chunks[0].source)]);
  }

  lemma StartOfSegment(q: Request)
    ensures IdsOf([]) == {} && SequencesOf([]) == {} && FirstObjection(q, []).None? && PcmOf([]) == []
  {
  }

  /** The first objection to a segment is the first objection to one of its chunks. */
  lemma NextChunk(q: Request, chunks: seq<Chunk>, i: nat)
    requires i < |chunks| && FirstObjection(q, chunks[..i]).None?
    ensures var objection := Objection(q, chunks[..i], chunks[i]);
      && (objection.Some? ==> FirstObjection(q, chunks) == objection)
      && (objection.None? ==> FirstObjection(q, chunks[..i + 1]).None?)
    ensures chunks[..i] + [chunks[i]] == chunks[..i + 1]
    ensures PcmOf(chunks[..i + 1]) == PcmOf(chunks[..i]) + chunks[i].pcm
  {
    hide Objection;
    assert chunks[..i + 1][..i] == chunks[..i];
    if Objection(q, chunks[..i], chunks[i]).Some? { ObjectionStays(q, chunks, i + 1); }
  }

  lemma SetsGrow(chunks: seq<Chunk>, chunk: Chunk)
    ensures IdsOf(chunks + [chunk]) == IdsOf(chunks) + {chunk.chunkId}
    ensures SequencesOf(chunks + [chunk]) == SequencesOf(chunks) + {chunk.sequence}
  {
    assert chunk in chunks + [chunk];
    assert forall b | b in chunks :: b in chunks + [chunk];
  }

  lemma {:induction false} ObjectionStays(q: Request, chunks: seq<Chunk>, i: nat)
    requires i <= |chunks| && FirstObjection(q, chunks[..i]).Some?
    ensures FirstObjection(q, chunks) == FirstObjection(q, chunks[..i])
  {
    if i == |chunks| {
      assert chunks[..i] == chunks;
    } else {
      var front := chunks[..|chunks| - 1];
      assert front[..i] == chunks[..i];
      ObjectionStays(q, front, i);
    }
  }

  // ----- which segments are accepted -----

  /** Every chunk is of the response, in its place, and no id comes twice. */
  ghost predicate InPlace(q: Request, chunks: seq<Chunk>) {
    && (forall i | 0 <= i < |chunks| :: chunks[i].responseId == q.responseId && chunks[i].sequence == q.sequenceStart + i)
    && (forall i, j | 0 <= i < j < |chunks| :: chunks[i].chunkId != chunks[j].chunkId)
  }

  /** What is wrong with the chunk at `k`, told by the chunks before it. */
  ghost function Wrong(q: Request, chunks: seq<Chunk>, k: nat): Option<GaplessError>
    requires k < |chunks|
  {
    if exists i :: 0 <= i < k && chunks[i].chunkId == chunks[k].chunkId then Some(DuplicateChunkId)
    else if exists i :: 0 <= i < k && chunks[i].sequence == chunks[k].sequence then Some(DuplicateSequence)
    else if chunks[k].responseId != q.responseId then Some(StaleResponseId)
    else if chunks[k].sequence != q.sequenceStart + k then Some(NonContiguous)
    else None
  }

  lemma WrongIs(q: Request, chunks: seq<Chunk>, k: nat)
    requires k < |chunks|
    ensures Objection(q, chunks[..k], chunks[k]) == Wrong(q, chunks, k)
  {
    var before := chunks[..k];
    forall i | 0 <= i < k ensures before[i] in before && before[i] == chunks[i] {
    }
    if chunks[k].chunkId in IdsOf(before) {
      var c :| c in before && c.chunkId == chunks[k].chunkId;
    }
    if chunks[k].sequence in SequencesOf(before) {
      var c :| c in before && c.sequence == chunks[k].sequence;
    }
  }

  /** The first wrong chunk decides, and a segment has none exactly when all are in place. */
  lemma {:induction false} FirstWrong(q: Request, chunks: seq<Chunk>)
    ensures FirstObjection(q, chunks).None? <==> InPlace(q, chunks)
    ensures forall k | 0 <= k < |chunks| && InPlace(q, chunks[..k]) && Wrong(q, chunks, k).Some? ::
              FirstObjection(q, chunks) == Wrong(q, chunks, k)
  {
    hide Objection, Wrong;
    if chunks != [] {
      var n := |chunks| - 1;
      var front := chunks[..n];
      FirstWrong(q, front);
      WrongIs(q, chunks, n);
      assert InPlace(q, chunks) <==> InPlace(q, front) && Wrong(q, chunks, n).None? by { InPlaceNext(q, chunks); }
      forall k | 0 <= k < |chunks| && InPlace(q, chunks[..k]) && Wrong(q, chunks, k).Some?
        ensures FirstObjection(q, chunks) == Wrong(q, chunks, k)
      {
        if k < n {
          WrongIs(q, chunks, k);
          WrongIs(q, front, k);
          assert front[..k] == chunks[..k];
        }
      }
    }
  }

  lemma InPlaceNext(q: Request, chunks: seq<Chunk>)
    requires chunks != []
    ensures InPlace(q, chunks) <==> InPlace(q, chunks[..|chunks| - 1]) && Wrong(q, chunks, |chunks| - 1).None?
  {
    var n := |chunks| - 1;
    var front := chunks[..n];
    if InPlace(q, front) && Wrong(q, chunks, n).None? {
      forall i | 0 <= i < n ensures chunks[i].chunkId != chunks[n].chunkId {
      }
    }
  }

  /**
   * A segment is reassembled exactly when its chunks are in place and it is one browser chunk, or PCM
   * of one source whose last chunk is the final boundary with the text of the request.
   */
  lemma AcceptedExactly(q: Request, id: string, chunks: seq<Chunk>)
    requires chunks != []
    ensures var result := Reassemble(q, id, chunks);
      var last := chunks[|chunks| - 1];
      var browser := |chunks| == 1 && chunks[0].browser;
      && (result.Ok? <==>
            && InPlace(q, chunks)
            && (|| browser
                || (&& (forall i | 0 <= i < |chunks| :: !chunks[i].browser && chunks[i].source == chunks[0].source)
                    && last.boundary && last.semanticText == q.text)))
      && (result.Ok? ==>
            result.value == if browser then chunks
                            else [Chunk(id, q.responseId, if q.displayText.Some? then q.displayText.value else q.text, Strip(q.text),
                                        q.sequenceStart, PcmOf(chunks), true, false, chunks[0].source)])
  {
    hide Objection, Wrong, Strip, PcmOf, FirstObjection;
    FirstWrong(q, chunks);
    assert forall i | 0 <= i < |chunks| :: chunks[i] in chunks;
  }

  /** Only the final chunk of a request carries its text, as it is to be shown. */
  lemma OnlyLastSpeaks(q: Request, ids: seq<string>, packets: seq<Packet>, source: string, i: nat)
    requires |ids| == |packets| && i < |packets|
    ensures var c := ChunksOf(q, ids, packets, source)[i];
      && c.boundary == packets[i].final
      && c.text == (if !packets[i].final then "" else if q.displayText.None? then q.text else q.displayText.value)
  {
    hide Strip, ChunksOf;
    ChunkAt(q, ids, packets, source, i);
  }

  // ----- the round trip -----

  ghost predicate Distinct(ids: seq<string>) { forall i, j | 0 <= i < j < |ids| :: ids[i] != ids[j] }

  lemma {:induction false} NumberedPasses(q: Request, ids: seq<string>, packets: seq<Packet>, source: string)
    requires |ids| == |packets| && Distinct(ids)
    ensures FirstObjection(q, ChunksOf(q, ids, packets, source)).None?
    ensures PcmOf(ChunksOf(q, ids, packets, source)) == Joined(packets)
  {
    hide Strip, Objection;
    if packets != [] {
      var n := |packets| - 1;
      var chunks := ChunksOf(q, ids, packets, source);
      assert chunks[..n] == ChunksOf(q, ids[..n], packets[..n], source);
      NumberedPasses(q, ids[..n], packets[..n], source);
      NumberedNext(q, ids, packets, source);
    }
  }

  lemma NumberedNext(q: Request, ids: seq<string>, packets: seq<Packet>, source: string)
    requires |ids| == |packets| > 0 && Distinct(ids)
    ensures var chunks := ChunksOf(q, ids, packets, source);
      Objection(q, chunks[..|chunks| - 1], chunks[|chunks| - 1]).None?
  {
    hide Strip;
    var n := |packets| - 1;
    var chunks := ChunksOf(q, ids, packets, source);
    ChunksAt(q, ids, packets, source);
    forall b | b in chunks[..n] ensures b.chunkId != chunks[n].chunkId && b.sequence != chunks[n].sequence {
      var k :| 0 <= k < n && chunks[..n][k] == b;
      assert ids[k] != ids[n];
    }
  }

  /**
   * The chunks of one request reassemble into one buffer with the same PCM exactly when its text
   * has no outer blanks; otherwise the final boundary is reported as missing.
   */
  lemma ReassemblesExactly(q: Request, id: string, ids: seq<string>, packets: seq<Packet>, source: string)
    requires |ids| == |packets| && Distinct(ids) && packets != [] && packets[|packets| - 1].final
    ensures var result := Reassemble(q, id, ChunksOf(q, ids, packets, source));
      && (Strip(q.text) != q.text <==> result == Err(MissingBoundary))
      && (Strip(q.text) == q.text <==>
            result == Ok([Chunk(id, q.responseId, q.Shown(), q.text, q.sequenceStart, Joined(packets), true, false, source)]))
  {
    hide Strip, FirstObjection, PcmOf, ChunksOf, Joined;
    NumberedPasses(q, ids, packets, source);
    ChunksAt(q, ids, packets, source);
    var chunks := ChunksOf(q, ids, packets, source);
    assert forall c | c in chunks :: c.browser == chunks[0].browser && c.source == chunks[0].source;
    assert chunks[|chunks| - 1].boundary && chunks[|chunks| - 1].semanticText == Strip(q.text);
  }

  /**
   * From the network to the sink: without cancellation and within budget, a stripped text of at
   * least one sample of audio arrives as one gapless buffer holding exactly the bytes received,
   * without an odd last one, however the network split them.
   */
  lemma StreamRoundTrip(t: Targets, maximum: real, generated: real, pieces: seq<Bytes>,
                        q: Request, id: string, ids: seq<string>, source: string)
    requires t.Valid() && |Flatten(pieces)| >= 2
    requires generated + Seconds(EvenLength(Flatten(pieces))) <= maximum && Strip(q.text) == q.text
    requires Distinct(ids) && |ids| == |Expected(t, pieces)|
    ensures Read(t, maximum, generated, pieces) == Streamed(Expected(t, pieces))
    ensures var result := Reassemble(q, id, ChunksOf(q, ids, Expected(t, pieces), source));
      && result.Ok? && |result.value| == 1
      && result.value[0].pcm == Flatten(pieces)[..EvenLength(Flatten(pieces))]
      && result.value[0].sequence == q.sequenceStart && result.value[0].text == q.Shown()
  {
    hide Read, Flatten, Joined, Strip, Seconds;
    ReadExactly(t, maximum, generated, pieces);
    PacketRoundTrip(t, maximum, generated, pieces);
    ReassemblesExactly(q, id, ids, Expected(t, pieces), source);
  }
}
