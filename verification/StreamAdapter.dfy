/** Turning the provider's chunks into the events' vocabulary. */
module StreamAdapter {
  import opened Events

  /** `BadTool` is a tool chunk whose content is no mapping with a tool name. */
  datatype Chunk =
    | Delta(text: string)
    | Message(text: string)
    | Tool(toolName: string, input: ToolInput)
    | BadTool
    | Unsupported(kind: string)

  datatype Adapted =
    | AdaptedDelta(text: string)
    | AdaptedMessage(text: string)
    | AdaptedTool(toolName: string, input: ToolInput)
    | AdaptedBadTool

  /** Does a delta still wait for its message after these chunks? */
  predicate SawDelta(chunks: seq<Chunk>) {
    if chunks == [] then false
    else
      match chunks[|chunks| - 1]
      case Delta(_) => true
      case Message(_) => false
      case _ => SawDelta(chunks[..|chunks| - 1])
  }

  /** What one chunk yields. */
  function Yield(sawDelta: bool, chunk: Chunk): seq<Adapted> {
    match chunk
    case Delta(t) => [AdaptedDelta(t)]
    case Message(t) => (if sawDelta then [] else [AdaptedDelta(t)]) + [AdaptedMessage(t)]
    case Tool(n, i) => [AdaptedTool(n, i)]
    case BadTool => [AdaptedBadTool]
    case Unsupported(_) => []
  }

  /** The chunks before the first unsupported one. */
  function Supported(chunks: seq<Chunk>): (r: seq<Chunk>)
    ensures r <= chunks
    ensures forall c :: c in r ==> !c.Unsupported?
    ensures r != chunks ==> chunks[|r|].Unsupported?
  {
    if chunks == [] then []
    else
      var front := Supported(chunks[..|chunks| - 1]);
      if |front| == |chunks| - 1 && !chunks[|chunks| - 1].Unsupported? then chunks else front
  }

  function AdaptAll(chunks: seq<Chunk>): seq<Adapted> {
    if chunks == [] then []
    else
      var front := chunks[..|chunks| - 1];
      AdaptAll(front) + Yield(SawDelta(front), chunks[|chunks| - 1])
  }

  /** The generator, run to its end: what it yielded, and whether it ended without raising. */
  method Adapt(chunks: seq<Chunk>) returns (items: seq<Adapted>, ok: bool)
    ensures items == AdaptAll(Supported(chunks))
    ensures ok <==> Supported(chunks) == chunks
  {
    items, ok := [], true;
    var sawDelta := false;
    var i := 0;
    while i < |chunks|
      invariant 0 <= i <= |chunks|
      invariant Supported(chunks[..i]) == chunks[..i]
      invariant items == AdaptAll(chunks[..i])
      invariant sawDelta == SawDelta(chunks[..i])
    {
      var chunk := chunks[i];
      AdaptPush(chunks[..i], chunk);
      assert chunks[..i] + [chunk] == chunks[..i + 1];
      assert chunks[..i + 1][..i] == chunks[..i];
      match chunk {
        case Delta(t) =>
          sawDelta := true;
          items := items + [AdaptedDelta(t)];
        case Message(t) =>
          if !sawDelta {
            items := items + [AdaptedDelta(t)];
          }
          items := items + [AdaptedMessage(t)];
          sawDelta := false;
        case Tool(n, input) =>
          items := items + [AdaptedTool(n, input)];
        case BadTool =>
          items := items + [AdaptedBadTool];
        case Unsupported(_) =>
          SupportedStops(chunks, i);
          return items, false;
      }
      i := i + 1;
    }
    assert chunks[..i] == chunks;
  }

  lemma {:induction false} SupportedStops(chunks: seq<Chunk>, i: nat)
    requires i < |chunks| && chunks[i].Unsupported? && Supported(chunks[..i]) == chunks[..i]
    ensures Supported(chunks) == chunks[..i]
  {
    if i < |chunks| - 1 {
      var front := chunks[..|chunks| - 1];
      assert front[..i] == chunks[..i];
      SupportedStops(front, i);
    } else {
      assert chunks[..|chunks| - 1] == chunks[..i];
    }
  }

  // ----- what adapting promises -----------------------------------------------------------------

  /** The chunks and the adapted stream, without deltas. */
  datatype Item = MessageItem(text: string) | ToolItem(toolName: string, input: ToolInput) | BadItem

  function ChunkItem(chunk: Chunk): seq<Item> {
    match chunk
    case Message(t) => [MessageItem(t)]
    case Tool(n, i) => [ToolItem(n, i)]
    case BadTool => [BadItem]
    case _ => []
  }

  function AdaptedItem(x: Adapted): seq<Item> {
    match x
    case AdaptedMessage(t) => [MessageItem(t)]
    case AdaptedTool(n, i) => [ToolItem(n, i)]
    case AdaptedBadTool => [BadItem]
    case AdaptedDelta(_) => []
  }

  function ChunkItems(chunks: seq<Chunk>): seq<Item> {
    if chunks == [] then [] else ChunkItems(chunks[..|chunks| - 1]) + ChunkItem(chunks[|chunks| - 1])
  }

  function AdaptedItems(items: seq<Adapted>): seq<Item> {
    if items == [] then [] else AdaptedItems(items[..|items| - 1]) + AdaptedItem(items[|items| - 1])
  }

  function AsAdapted(chunk: Chunk): Adapted
    requires !chunk.Unsupported?
  {
    match chunk
    case Delta(t) => AdaptedDelta(t)
    case Message(t) => AdaptedMessage(t)
    case Tool(n, i) => AdaptedTool(n, i)
    case BadTool => AdaptedBadTool
  }

  /** How the output grows with one more chunk. */
  lemma AdaptPush(front: seq<Chunk>, chunk: Chunk)
    ensures var a := AdaptAll(front);
            AdaptAll(front + [chunk]) ==
            if chunk.Unsupported? then a
            else if chunk.Message? && !SawDelta(front) then a + [AdaptedDelta(chunk.text)] + [AdaptedMessage(chunk.text)]
            else a + [AsAdapted(chunk)]
    ensures SawDelta(front + [chunk]) == (chunk.Delta? || (!chunk.Message? && SawDelta(front)))
  {
    assert (front + [chunk])[..|front|] == front;
  }

  lemma ItemsPush(a: seq<Adapted>, x: Adapted)
    ensures AdaptedItems(a + [x]) == AdaptedItems(a) + AdaptedItem(x)
  {
    assert (a + [x])[..|a|] == a;
  }

  lemma ItemsStep(front: seq<Chunk>, chunk: Chunk)
    ensures AdaptedItems(AdaptAll(front + [chunk])) == AdaptedItems(AdaptAll(front)) + ChunkItem(chunk)
  {
    AdaptPush(front, chunk);
    var a := AdaptAll(front);
    if chunk.Message? && !SawDelta(front) {
      ItemsPush(a, AdaptedDelta(chunk.text));
      assert AdaptedItems(a) + [] == AdaptedItems(a);
      ItemsPush(a + [AdaptedDelta(chunk.text)], AdaptedMessage(chunk.text));
    } else if !chunk.Unsupported? {
      ItemsPush(a, AsAdapted(chunk));
    }
  }

  lemma ChunkItemsPush(front: seq<Chunk>, chunk: Chunk)
    ensures ChunkItems(front + [chunk]) == ChunkItems(front) + ChunkItem(chunk)
  {
    assert (front + [chunk])[..|front|] == front;
  }

  /** After these chunks a delta has come since the last message. */
  ghost predicate DeltaWaits(chunks: seq<Chunk>) {
    exists i :: 0 <= i < |chunks| && chunks[i].Delta? && forall j :: i < j < |chunks| ==> !chunks[j].Message?
  }

  lemma {:induction false} SawDeltaIff(chunks: seq<Chunk>)
    ensures SawDelta(chunks) <==> DeltaWaits(chunks)
  {
    if chunks != [] {
      var front, last := chunks[..|chunks| - 1], chunks[|chunks| - 1];
      SawDeltaIff(front);
      assert chunks == front + [last];
      assert forall i :: 0 <= i < |front| ==> chunks[i] == front[i];
      if last.Delta? {
        assert chunks[|front|].Delta?;
      } else if !last.Message? && DeltaWaits(front) {
        var i :| 0 <= i < |front| && front[i].Delta? && forall j :: i < j < |front| ==> !front[j].Message?;
        assert chunks[i].Delta?;
      }
    }
  }

  /** What each kind of chunk adds to the output: itself, and a delta in front of a message that has none. */
  lemma {:induction false} AdaptAdds(front: seq<Chunk>, chunk: Chunk)
    ensures var a, more := AdaptAll(front), AdaptAll(front + [chunk]);
            match chunk
            case Delta(t) => more == a + [AdaptedDelta(t)]
            case Message(t) => more == a + (if DeltaWaits(front) then [] else [AdaptedDelta(t)]) + [AdaptedMessage(t)]
            case Tool(n, i) => more == a + [AdaptedTool(n, i)]
            case BadTool => more == a + [AdaptedBadTool]
            case Unsupported(_) => more == a
  {
    SawDeltaIff(front);
    AdaptPush(front, chunk);
    assert AdaptAll(front) + [] == AdaptAll(front);
  }

  /** Messages and tool calls pass through, in order and unchanged. */
  lemma {:induction false} AdaptKeepsItems(chunks: seq<Chunk>)
    ensures AdaptedItems(AdaptAll(chunks)) == ChunkItems(chunks)
  {
    if chunks != [] {
      var front, chunk := chunks[..|chunks| - 1], chunks[|chunks| - 1];
      assert front + [chunk] == chunks;
      AdaptKeepsItems(front);
      ItemsStep(front, chunk);
      ChunkItemsPush(front, chunk);
    }
  }

  /** Is a delta waiting for its message at the end of an adapted stream? */
  predicate Pending(items: seq<Adapted>) {
    if items == [] then false
    else
      match items[|items| - 1]
      case AdaptedDelta(_) => true
      case AdaptedMessage(_) => false
      case _ => Pending(items[..|items| - 1])
  }

  /** Every message has a delta since the message before it. */
  predicate Announced(items: seq<Adapted>) {
    items == [] ||
    var front := items[..|items| - 1];
    Announced(front) && (items[|items| - 1].AdaptedMessage? ==> Pending(front))
  }

  lemma AnnouncedPush(a: seq<Adapted>, x: Adapted)
    requires Announced(a) && (x.AdaptedMessage? ==> Pending(a))
    ensures Announced(a + [x])
    ensures Pending(a + [x]) == (x.AdaptedDelta? || (!x.AdaptedMessage? && Pending(a)))
  {
    assert (a + [x])[..|a|] == a;
  }

  lemma AnnouncesStep(front: seq<Chunk>, chunk: Chunk)
    requires Announced(AdaptAll(front)) && Pending(AdaptAll(front)) == SawDelta(front)
    ensures Announced(AdaptAll(front + [chunk])) && Pending(AdaptAll(front + [chunk])) == SawDelta(front + [chunk])
  {
    AdaptPush(front, chunk);
    var a := AdaptAll(front);
    if chunk.Message? && !SawDelta(front) {
      AnnouncedPush(a, AdaptedDelta(chunk.text));
      AnnouncedPush(a + [AdaptedDelta(chunk.text)], AdaptedMessage(chunk.text));
    } else if !chunk.Unsupported? {
      AnnouncedPush(a, AsAdapted(chunk));
    }
  }

  lemma {:induction false} AdaptAnnounces(chunks: seq<Chunk>)
    ensures Announced(AdaptAll(chunks)) && Pending(AdaptAll(chunks)) == SawDelta(chunks)
  {
    if chunks != [] {
      var front, chunk := chunks[..|chunks| - 1], chunks[|chunks| - 1];
      AdaptAnnounces(front);
      AnnouncesStep(front, chunk);
      assert front + [chunk] == chunks;
    }
  }

  function AsChunk(item: Adapted): Chunk {
    match item
    case AdaptedDelta(t) => Delta(t)
    case AdaptedMessage(t) => Message(t)
    case AdaptedTool(n, i) => Tool(n, i)
    case AdaptedBadTool => BadTool
  }

  function AsChunks(items: seq<Adapted>): seq<Chunk> {
    if items == [] then [] else AsChunks(items[..|items| - 1]) + [AsChunk(items[|items| - 1])]
  }

  lemma {:induction false} AnnouncedIsFixed(items: seq<Adapted>)
    requires Announced(items)
    ensures AdaptAll(AsChunks(items)) == items
    ensures SawDelta(AsChunks(items)) == Pending(items)
  {
    if items != [] {
      var front, item := items[..|items| - 1], items[|items| - 1];
      AnnouncedIsFixed(front);
      FixedPush(AsChunks(front), front, item);
      assert items == front + [item];
    }
  }

  lemma FixedPush(c: seq<Chunk>, a: seq<Adapted>, x: Adapted)
    requires AdaptAll(c) == a && SawDelta(c) == Pending(a)
    requires x.AdaptedMessage? ==> Pending(a)
    ensures AdaptAll(c + [AsChunk(x)]) == a + [x]
    ensures SawDelta(c + [AsChunk(x)]) == Pending(a + [x])
  {
    AdaptPush(c, AsChunk(x));
    assert (a + [x])[..|a|] == a;
  }

  /** Adapting is idempotent: its own output, read as chunks, comes back unchanged. */
  lemma AdaptIdempotent(chunks: seq<Chunk>)
    ensures AdaptAll(AsChunks(AdaptAll(chunks))) == AdaptAll(chunks)
  {
    AdaptAnnounces(chunks);
    AnnouncedIsFixed(AdaptAll(chunks));
  }

  // ----- the text is conserved --------------------------------------------------------------------

  /** All delta text, all message text, and the delta text since the last message. */
  datatype Tally = Tally(deltas: string, messages: string, tail: string)

  function Count(items: seq<Adapted>): Tally {
    if items == [] then Tally("", "", "")
    else
      var t := Count(items[..|items| - 1]);
      match items[|items| - 1]
      case AdaptedDelta(s) => Tally(t.deltas + s, t.messages, t.tail + s)
      case AdaptedMessage(s) => Tally(t.deltas, t.messages + s, "")
      case _ => t
  }

  /** The provider's messages repeat the deltas since the message before, if there are any. */
  predicate Faithful(chunks: seq<Chunk>) {
    forall i :: 0 <= i < |chunks| && chunks[i].Message? && SawDelta(chunks[..i]) ==>
      chunks[i].text == Count(AdaptAll(chunks[..i])).tail
  }

  lemma CountPush(a: seq<Adapted>, x: Adapted)
    ensures Count(a + [x]) ==
            var t := Count(a);
            match x
            case AdaptedDelta(s) => Tally(t.deltas + s, t.messages, t.tail + s)
            case AdaptedMessage(s) => Tally(t.deltas, t.messages + s, "")
            case _ => t
  {
    assert (a + [x])[..|a|] == a;
  }

  lemma FaithfulFront(chunks: seq<Chunk>)
    requires Faithful(chunks) && chunks != []
    ensures Faithful(chunks[..|chunks| - 1])
  {
    var front := chunks[..|chunks| - 1];
    forall i | 0 <= i < |front| && front[i].Message? && SawDelta(front[..i])
      ensures front[i].text == Count(AdaptAll(front[..i])).tail
    {
      assert chunks[i].Message?;
      assert front[..i] == chunks[..i];
    }
  }

  /** From a faithful provider, the deltas broadcast are the messages plus an unfinished tail. */
  lemma {:induction false} DeltasAreMessages(chunks: seq<Chunk>)
    requires Faithful(chunks)
    ensures Balanced(Count(AdaptAll(chunks))) && (!SawDelta(chunks) ==> Count(AdaptAll(chunks)).tail == "")
  {
    if chunks != [] {
      var front, chunk := chunks[..|chunks| - 1], chunks[|chunks| - 1];
      FaithfulFront(chunks);
      DeltasAreMessages(front);
      assert front + [chunk] == chunks;
      assert chunks[..|front|] == front;
      DeltasPush(front, chunk);
    }
  }

  /** Messages so far plus tail are the deltas so far. */
  predicate Balanced(t: Tally) {
    t.deltas == t.messages + t.tail
  }

  lemma BalancedPush(a: seq<Adapted>, x: Adapted)
    requires Balanced(Count(a))
    requires x.AdaptedMessage? ==> x.text == Count(a).tail
    ensures Balanced(Count(a + [x]))
    ensures Count(a + [x]).tail == if x.AdaptedDelta? then Count(a).tail + x.text
                                   else if x.AdaptedMessage? then "" else Count(a).tail
  {
    var t := Count(a);
    CountPush(a, x);
    if x.AdaptedDelta? {
      assert t.messages + t.tail + x.text == t.messages + (t.tail + x.text);
    }
  }

  lemma DeltasPush(front: seq<Chunk>, chunk: Chunk)
    requires Balanced(Count(AdaptAll(front))) && (!SawDelta(front) ==> Count(AdaptAll(front)).tail == "")
    requires chunk.Message? && SawDelta(front) ==> chunk.text == Count(AdaptAll(front)).tail
    ensures Balanced(Count(AdaptAll(front + [chunk])))
    ensures !SawDelta(front + [chunk]) ==> Count(AdaptAll(front + [chunk])).tail == ""
  {
    AdaptPush(front, chunk);
    var a := AdaptAll(front);
    if chunk.Message? && !SawDelta(front) {
      BalancedPush(a, AdaptedDelta(chunk.text));
      assert "" + chunk.text == chunk.text;
      BalancedPush(a + [AdaptedDelta(chunk.text)], AdaptedMessage(chunk.text));
    } else if !chunk.Unsupported? {
      BalancedPush(a, AsAdapted(chunk));
    }
  }
}
