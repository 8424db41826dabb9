// agent-channel.ts: newline-delimited frames over a byte stream that arrives in arbitrary chunks,
// the parent's handover after the hello line, and the child's handover after the welcome.

module Framing {
  import opened Options
  import opened Lines
  import opened Json

  const CHANNEL_PROTOCOL_VERSION := 1
  const MAX_HELLO_CHARS: nat := 1_048_576
  const MAX_FRAME_CHARS: nat := 8 * 1024 * 1024

  /** The JSON codec of one connection. */
  datatype Codec<!M> = Codec(encode: M -> string, parse: string -> Option<M>)

  /**
   * An encoded message parses back, is not empty, and holds no newline: JSON escapes control characters (section
   * 7 of RFC 8259).
   */
  ghost predicate Sound<M(!new)>(k: Codec<M>) {
    forall m :: k.parse(k.encode(m)) == Some(m) && k.encode(m) != "" && '\n' !in k.encode(m)
  }

  /** The wire text of some messages. */
  function Wire<M>(k: Codec<M>, ms: seq<M>): string {
    if ms == [] then "" else k.encode(ms[0]) + ['\n'] + Wire(k, ms[1..])
  }

  function Encodings<M>(k: Codec<M>, ms: seq<M>): seq<string> {
    seq(|ms|, i requires 0 <= i < |ms| => k.encode(ms[i]))
  }

  function Concat(chunks: seq<string>): string {
    if chunks == [] then "" else Concat(chunks[..|chunks| - 1]) + chunks[|chunks| - 1]
  }

  /** A line the reader accepts: blank, or a frame that parses. */
  predicate Good<M>(k: Codec<M>, line: string) {
    line == "" || k.parse(line).Some?
  }

  predicate AllGood<M>(k: Codec<M>, lines: seq<string>) {
    forall i | 0 <= i < |lines| :: Good(k, lines[i])
  }

  function Messages<M>(k: Codec<M>, lines: seq<string>): seq<M>
    requires AllGood(k, lines)
  {
    if lines == [] then []
    else
      var last := lines[|lines| - 1];
      Messages(k, lines[..|lines| - 1]) + if last == "" then [] else [k.parse(last).value]
  }

  function IndexOf(s: string, c: char): (r: int)
    ensures -1 <= r < |s|
    ensures r >= 0 ==> s[r] == c && c !in s[..r]
    ensures r < 0 ==> c !in s
  {
    if s == "" then -1
    else if s[0] == c then 0
    else
      var rest := IndexOf(s[1..], c);
      if rest < 0 then -1 else rest + 1
  }

  /** Who is subscribed: nobody, the one-shot handshake listener, or the channel's own listener. */
  datatype Listener = Nobody | Handshake | Feature

  class Connection<M(!new)> {
    const codec: Codec<M>
    var buffer: string
    var backlog: seq<M>
    var listener: Listener
    var destroyed: bool
    /** What each listener was handed, in order. */
    var welcomed: seq<M>
    var received: seq<M>
    /** Every character that has arrived, and the whole lines taken out of the buffer. */
    ghost var stream: string
    ghost var drained: string
    ghost var lines: seq<string>

    /** Every message so far, in order, whoever has it. */
    ghost function Delivered(): seq<M>
      reads this`welcomed, this`received, this`backlog
    {
      welcomed + received + backlog
    }

    /** The stream is the lines taken out and what the buffer still holds. */
    ghost predicate Framed()
      reads this`buffer, this`stream, this`drained, this`lines
    {
      Whole(drained, '\n') && stream == drained + buffer && lines == LinesOf(drained, '\n')
    }

    /** Every message of those lines has been delivered, in order. */
    ghost predicate Counted()
      reads this`lines, this`welcomed, this`received, this`backlog, this`listener
    {
      && AllGood(codec, lines)
      && Delivered() == Messages(codec, lines)
      && (listener.Handshake? ==> Delivered() == [])
      && (listener.Feature? ==> backlog == [])
      && |welcomed| <= 1
    }

    ghost predicate Valid()
      reads this
    {
      Framed() && Counted()
    }

    /**
     * How a subscription may have moved while lines were delivered: only the one-shot listener leaves, with its
     * message.
     */
    twostate predicate OnlyOneShotLeft()
      reads this`listener, this`welcomed
    {
      && (listener == old(listener) || (old(listener).Handshake? && listener.Nobody? && |welcomed| == 1))
      && (!old(listener).Handshake? ==> welcomed == old(welcomed))
    }

    constructor (codec: Codec<M>, initialBuffer: string)
      ensures Valid() && this.codec == codec && stream == initialBuffer && buffer == initialBuffer
      ensures listener.Nobody? && !destroyed && Delivered() == []
    {
      this.codec := codec;
      buffer, backlog, listener, destroyed := initialBuffer, [], Nobody, false;
      welcomed, received := [], [];
      stream, drained, lines := initialBuffer, "", [];
      new;
      assert LinesOf("", '\n') == [];
    }

    method Deliver(m: M)
      requires listener.Handshake? ==> Delivered() == []
      requires listener.Feature? ==> backlog == []
      requires |welcomed| <= 1
      modifies this`backlog, this`listener, this`welcomed, this`received
      ensures Delivered() == old(Delivered()) + [m]
      ensures listener == if old(listener).Handshake? then Nobody else old(listener)
      ensures listener.Feature? ==> backlog == []
      ensures |welcomed| <= 1
      ensures welcomed == if old(listener).Handshake? then [m] else old(welcomed)
    {
      match listener
      case Nobody => backlog := backlog + [m];
      case Handshake => welcomed, listener := [m], Nobody;
      case Feature => received := received + [m];
    }

    /** One good line: its message, if it holds one, goes to whoever is subscribed. */
    method TakeFrame(line: string)
      requires Counted() && Good(codec, line)
      modifies this`lines, this`backlog, this`listener, this`welcomed, this`received
      ensures Counted() && lines == old(lines) + [line]
      ensures OnlyOneShotLeft()
    {
      GoodLine(codec, lines, line);
      lines := lines + [line];
      if line != "" {
        Deliver(codec.parse(line).value);
      }
    }

    /** Takes every whole line out of the buffer; a malformed frame or an oversized rest ends the connection. */
    method Drain()
      requires Valid()
      modifies this
      ensures Valid() && stream == old(stream)
      ensures !destroyed ==> '\n' !in buffer
      ensures old(!destroyed) ==> (destroyed <==> !InLimits(codec, stream))
      ensures OnlyOneShotLeft()
    {
      var index := IndexOf(buffer, '\n');
      while index >= 0
        invariant Valid() && stream == old(stream) && destroyed == old(destroyed)
        invariant index == IndexOf(buffer, '\n')
        invariant OnlyOneShotLeft()
        decreases |buffer|
      {
        var ok := TakeOne(index);
        if !ok {
          destroyed := true;
          return;
        }
        index := IndexOf(buffer, '\n');
      }
      RestDecides(codec, drained, buffer);
      if |buffer| > MAX_FRAME_CHARS {
        destroyed := true;
      }
    }

    /** One whole line: out of the buffer and on its way, or malformed. */
    method TakeOne(index: nat) returns (ok: bool)
      requires Valid() && index == IndexOf(buffer, '\n')
      modifies this`buffer, this`drained, this`lines, this`backlog, this`listener, this`welcomed, this`received
      ensures Valid() && OnlyOneShotLeft()
      ensures ok ==> |buffer| < old(|buffer|)
      ensures !ok ==> !InLimits(codec, stream)
    {
      var line := buffer[..index];
      if line != "" && codec.parse(line).None? {
        BadLine(codec, drained, buffer, index);
        return false;
      }
      PassLine(line);
      return true;
    }

    method PassLine(line: string)
      requires Valid() && Good(codec, line)
      requires |line| < |buffer| && line == buffer[..|line|] && buffer[|line|] == '\n' && '\n' !in line
      modifies this`buffer, this`drained, this`lines, this`backlog, this`listener, this`welcomed, this`received
      ensures Valid() && OnlyOneShotLeft() && |buffer| < old(|buffer|)
    {
      CutFrame(line);
      TakeFrame(line);
    }

    method CutFrame(line: string)
      requires Framed() && |line| < |buffer| && line == buffer[..|line|] && buffer[|line|] == '\n' && '\n' !in line
      modifies this`buffer, this`drained
      ensures buffer == old(buffer)[|line| + 1..]
      ensures Whole(drained, '\n') && stream == drained + buffer && LinesOf(drained, '\n') == lines + [line]
    {
      Recut(drained, buffer, |line|);
      OneMoreLine(drained, line);
      buffer := buffer[|line| + 1..];
      drained := drained + line + ['\n'];
    }

    method Data(chunk: string)
      requires Valid()
      modifies this
      ensures Valid() && stream == old(stream) + chunk
      ensures !destroyed ==> '\n' !in buffer
      ensures old(!destroyed) ==> (destroyed <==> !InLimits(codec, stream))
      ensures OnlyOneShotLeft()
    {
      Append(chunk);
      Drain();
    }

    method Append(chunk: string)
      requires Framed()
      modifies this`buffer, this`stream
      ensures Framed() && buffer == old(buffer) + chunk && stream == old(stream) + chunk
    {
      assert stream + chunk == drained + (buffer + chunk);
      buffer := buffer + chunk;
      stream := stream + chunk;
    }

    /** `awaitWelcome`'s listener, installed before anything can have arrived. */
    method AwaitFirst()
      requires Valid() && Delivered() == []
      modifies this`listener
      ensures Valid() && listener.Handshake?
    {
      listener := Handshake;
    }

    /** The channel's own listener: what piled up meanwhile is handed over first. */
    method Subscribe()
      requires Valid()
      modifies this`listener, this`backlog, this`received
      ensures Valid() && listener.Feature?
      ensures Delivered() == old(Delivered()) && backlog == []
    {
      listener := Feature;
      while backlog != []
        invariant Delivered() == old(Delivered()) && listener.Feature?
        invariant welcomed == old(welcomed)
        decreases |backlog|
      {
        HandedOver(welcomed, received, backlog);
        received, backlog := received + [backlog[0]], backlog[1..];
      }
    }
  }

  /** Every whole line of the text is good and the unfinished rest is no larger than a frame. */
  predicate InLimits<M>(k: Codec<M>, text: string) {
    var pieces := Split(text, '\n');
    AllGood(k, pieces[..|pieces| - 1]) && |pieces[|pieces| - 1]| <= MAX_FRAME_CHARS
  }

  lemma {:induction false} HandedOver<M>(welcomed: seq<M>, received: seq<M>, backlog: seq<M>)
    requires backlog != []
    ensures welcomed + received + backlog == welcomed + (received + [backlog[0]]) + backlog[1..]
  {
    assert backlog == [backlog[0]] + backlog[1..];
  }

  lemma {:induction false} Recut(drained: string, buffer: string, index: nat)
    requires index < |buffer| && buffer[index] == '\n'
    ensures drained + buffer == drained + buffer[..index] + ['\n'] + buffer[index + 1..]
  {
    assert buffer == buffer[..index] + ['\n'] + buffer[index + 1..];
  }

  lemma {:induction false} OneMoreLine(drained: string, line: string)
    requires Whole(drained, '\n') && '\n' !in line
    ensures LinesOf(drained + line + ['\n'], '\n') == LinesOf(drained, '\n') + [line]
  {
    assert drained + line + ['\n'] == drained + (line + ['\n']);
    LinesOfConcat(drained, line + ['\n'], '\n');
    LinesOfOne(line, '\n');
  }

  /** With good whole lines behind it, an unfinished rest decides by its size alone. */
  lemma {:induction false} RestDecides<M>(k: Codec<M>, drained: string, buffer: string)
    requires Whole(drained, '\n') && '\n' !in buffer && AllGood(k, LinesOf(drained, '\n'))
    ensures InLimits(k, drained + buffer) <==> |buffer| <= MAX_FRAME_CHARS
  {
    LinesOfConcat(drained, buffer, '\n');
    SplitWhole(buffer, '\n');
  }

  lemma {:induction false} GoodLine<M>(k: Codec<M>, lines: seq<string>, line: string)
    requires AllGood(k, lines) && Good(k, line)
    ensures AllGood(k, lines + [line])
    ensures Messages(k, lines + [line]) == Messages(k, lines) + if line == "" then [] else [k.parse(line).value]
  {
    assert (lines + [line])[..|lines|] == lines;
  }

  lemma {:induction false} BadLine<M>(k: Codec<M>, drained: string, buffer: string, index: nat)
    requires Whole(drained, '\n') && index < |buffer| && buffer[index] == '\n' && '\n' !in buffer[..index]
    requires !Good(k, buffer[..index])
    ensures !InLimits(k, drained + buffer)
  {
    var line, rest := buffer[..index], buffer[index + 1..];
    assert buffer == line + ['\n'] + rest;
    LinesOfConcat(drained, buffer, '\n');
    SplitAt(line, rest, '\n');
    SplitWhole(line, '\n');
    BadPiece(k, LinesOf(drained, '\n'), line, Split(rest, '\n'));
  }

  lemma {:induction false} BadPiece<M>(k: Codec<M>, before: seq<string>, line: string, after: seq<string>)
    requires !Good(k, line) && after != []
    ensures var pieces := before + ([line] + after); !AllGood(k, pieces[..|pieces| - 1])
  {
    var pieces := before + ([line] + after);
    assert pieces[..|pieces| - 1][|before|] == line;
  }

  // ----- a stream that is (part of) the wire text of some messages

  lemma {:induction false} WireSplits<M(!new)>(k: Codec<M>, ms: seq<M>)
    requires Sound(k)
    ensures Split(Wire(k, ms), '\n') == Encodings(k, ms) + [""]
  {
    if ms != [] {
      var first, rest := k.encode(ms[0]), Wire(k, ms[1..]);
      assert Wire(k, ms) == first + ['\n'] + rest;
      SplitAt(first, rest, '\n');
      SplitWhole(first, '\n');
      WireSplits(k, ms[1..]);
      assert Encodings(k, ms) == [first] + Encodings(k, ms[1..]);
    }
  }

  lemma {:induction false} MessagesOfEncodings<M(!new)>(k: Codec<M>, ms: seq<M>)
    requires Sound(k)
    ensures AllGood(k, Encodings(k, ms)) && Messages(k, Encodings(k, ms)) == ms
  {
    if ms != [] {
      var init := ms[..|ms| - 1];
      MessagesOfEncodings(k, init);
      assert Encodings(k, ms)[..|ms| - 1] == Encodings(k, init);
      assert init + [ms[|ms| - 1]] == ms;
    }
  }

  /** A text with no newline is a prefix of the first piece of any text it starts. */
  lemma {:induction false} FirstPiece(rest: string, more: string)
    requires '\n' !in rest
    ensures rest <= Split(rest + more, '\n')[0]
    ensures |Split(rest + more, '\n')| == |Split(more, '\n')|
  {
    if rest == "" {
      assert rest + more == more;
    } else {
      assert (rest + more)[1..] == rest[1..] + more;
      FirstPiece(rest[1..], more);
    }
  }

  predicate FramesFit<M>(k: Codec<M>, ms: seq<M>) {
    forall i | 0 <= i < |ms| :: |k.encode(ms[i])| <= MAX_FRAME_CHARS
  }

  /** Two ways to cut one list of pieces. */
  lemma {:induction false} CutPieces(lines: seq<string>, pieces: seq<string>, encodings: seq<string>)
    requires lines + pieces == encodings + [""] && pieces != []
    ensures |lines| <= |encodings| && lines == encodings[..|lines|]
    ensures |lines| < |encodings| ==> pieces[0] == encodings[|lines|]
    ensures |lines| == |encodings| ==> pieces[0] == ""
    ensures |pieces| == 1 ==> |lines| == |encodings|
  {
    assert pieces[0] == (lines + pieces)[|lines|];
    assert lines == (encodings + [""])[..|lines|];
  }

  /** Any part of the wire text splits into the first messages' frames and a rest within the next one. */
  lemma {:induction false} PartOfWire<M(!new)>(k: Codec<M>, ms: seq<M>, whole: string, rest: string)
    requires Sound(k) && Whole(whole, '\n') && '\n' !in rest && whole + rest <= Wire(k, ms)
    ensures var n := |LinesOf(whole, '\n')|;
            n <= |ms| && LinesOf(whole, '\n') == Encodings(k, ms[..n])
    ensures FramesFit(k, ms) ==> |rest| <= MAX_FRAME_CHARS
    ensures whole + rest == Wire(k, ms) ==> |LinesOf(whole, '\n')| == |ms|
  {
    var more := Wire(k, ms)[|whole + rest|..];
    assert Wire(k, ms) == whole + (rest + more);
    var lines, pieces := LinesOf(whole, '\n'), Split(rest + more, '\n');
    assert lines + pieces == Encodings(k, ms) + [""] by {
      LinesOfConcat(whole, rest + more, '\n');
      WireSplits(k, ms);
    }
    FirstPiece(rest, more);
    CutPieces(lines, pieces, Encodings(k, ms));
    assert Encodings(k, ms)[..|lines|] == Encodings(k, ms[..|lines|]);
    if |lines| < |ms| {
      assert pieces[0] == k.encode(ms[|lines|]);
    }
    if whole + rest == Wire(k, ms) {
      assert more == "";
    }
  }

  /** A prefix of the wire text stays within limits, and its whole lines are the first messages. */
  lemma {:induction false} PrefixInLimits<M(!new)>(k: Codec<M>, ms: seq<M>, text: string)
    requires Sound(k) && FramesFit(k, ms) && text <= Wire(k, ms)
    ensures InLimits(k, text)
  {
    var whole := WholePart(text);
    var rest := text[|whole|..];
    assert whole + rest == text;
    PartOfWire(k, ms, whole, rest);
    LinesOfConcat(whole, rest, '\n');
    SplitWhole(rest, '\n');
    var n := |LinesOf(whole, '\n')|;
    MessagesOfEncodings(k, ms[..n]);
    var pieces := Split(text, '\n');
    assert pieces[..|pieces| - 1] == LinesOf(whole, '\n');
  }

  function WholePart(s: string): (r: string)
    ensures r <= s && Whole(r, '\n') && '\n' !in s[|r|..]
  {
    if s == "" || s[|s| - 1] == '\n' then s else WholePart(s[..|s| - 1])
  }

  /** What a drained connection has delivered of a stream that starts the wire text. */
  lemma {:induction false} DeliveredOfWire<M(!new)>(k: Codec<M>, ms: seq<M>, drained: string, buffer: string)
    requires Sound(k) && Whole(drained, '\n') && '\n' !in buffer && drained + buffer <= Wire(k, ms)
    requires AllGood(k, LinesOf(drained, '\n'))
    ensures Messages(k, LinesOf(drained, '\n')) <= ms
    ensures drained + buffer == Wire(k, ms) ==> Messages(k, LinesOf(drained, '\n')) == ms
  {
    PartOfWire(k, ms, drained, buffer);
    var n := |LinesOf(drained, '\n')|;
    MessagesOfEncodings(k, ms[..n]);
  }

  /** A subscribed connection that holds no whole line has handed over all of the wire text's messages. */
  lemma {:induction false} AllDelivered<M(!new)>(conn: Connection<M>, ms: seq<M>)
    requires conn.Valid() && Sound(conn.codec) && conn.listener.Feature?
    requires '\n' !in conn.buffer && conn.stream == Wire(conn.codec, ms)
    ensures conn.welcomed + conn.received == ms && conn.backlog == []
  {
    DeliveredOfWire(conn.codec, ms, conn.drained, conn.buffer);
    assert conn.welcomed + conn.received + [] == conn.welcomed + conn.received;
  }

  lemma {:induction false} ConcatStep(chunks: seq<string>, i: nat)
    requires i < |chunks|
    ensures Concat(chunks[..i + 1]) == Concat(chunks[..i]) + chunks[i]
    ensures Concat(chunks[..i + 1]) <= Concat(chunks)
    decreases |chunks| - i
  {
    assert chunks[..i + 1][..i] == chunks[..i];
    if i + 1 < |chunks| {
      ConcatStep(chunks, i + 1);
    } else {
      assert chunks[..i + 1] == chunks;
    }
  }

  lemma {:induction false} FeedStep<M(!new)>(k: Codec<M>, ms: seq<M>, before: string, chunks: seq<string>, i: nat)
    requires Sound(k) && FramesFit(k, ms) && before + Concat(chunks) <= Wire(k, ms) && i < |chunks|
    ensures before + Concat(chunks[..i + 1]) == before + Concat(chunks[..i]) + chunks[i]
    ensures InLimits(k, before + Concat(chunks[..i]) + chunks[i])
  {
    ConcatStep(chunks, i);
    assert before + Concat(chunks[..i + 1]) <= before + Concat(chunks);
    PrefixInLimits(k, ms, before + Concat(chunks[..i + 1]));
  }

  /** Feeds chunks to a connection whose stream keeps within the wire text of `ms`. */
  method Feed<M(!new)>(conn: Connection<M>, chunks: seq<string>, ghost ms: seq<M>)
    requires conn.Valid() && Sound(conn.codec) && FramesFit(conn.codec, ms) && !conn.destroyed
    requires conn.stream + Concat(chunks) <= Wire(conn.codec, ms)
    modifies conn
    ensures conn.Valid() && !conn.destroyed && conn.stream == old(conn.stream) + Concat(chunks)
    ensures chunks != [] ==> '\n' !in conn.buffer
    ensures chunks == [] ==> conn.buffer == old(conn.buffer)
    ensures conn.OnlyOneShotLeft()
  {
    var i := 0;
    assert chunks[..|chunks|] == chunks;
    while i < |chunks|
      invariant 0 <= i <= |chunks|
      invariant conn.Valid() && !conn.destroyed && conn.stream == old(conn.stream) + Concat(chunks[..i])
      invariant i > 0 ==> '\n' !in conn.buffer
      invariant i == 0 ==> conn.buffer == old(conn.buffer)
      invariant conn.OnlyOneShotLeft()
    {
      FeedStep(conn.codec, ms, old(conn.stream), chunks, i);
      conn.Data(chunks[i]);
      i := i + 1;
    }
  }

  /**
   * The child's side: the first message answers the handshake, whatever piles up before the channel
   * subscribes is kept, and every later message reaches the subscriber once and in order, however the
   * stream is chunked.
   */
  method ChildReceives<M(!new)>(codec: Codec<M>, early: seq<string>, late: seq<string>, ghost welcome: M,
          ghost ms: seq<M>)
      returns (conn: Connection<M>)
    requires Sound(codec) && FramesFit(codec, [welcome] + ms)
    requires Wire(codec, [welcome]) <= Concat(early)
    requires Concat(early) + Concat(late) == Wire(codec, [welcome] + ms)
    ensures fresh(conn) && !conn.destroyed
    ensures conn.welcomed == [welcome] && conn.received == ms && conn.backlog == []
  {
    conn := Greeted(codec, early, welcome, [welcome] + ms);
    conn.Subscribe();
    Feed(conn, late, [welcome] + ms);
    AllDelivered(conn, [welcome] + ms);
    assert conn.welcomed == [welcome] by {
      FirstOfAll(conn.welcomed, conn.received, welcome, ms);
    }
  }

  lemma {:induction false} FirstOfAll<M>(welcomed: seq<M>, received: seq<M>, welcome: M, ms: seq<M>)
    requires |welcomed| == 1 && welcomed + received == [welcome] + ms
    ensures welcomed == [welcome] && received == ms
  {
    assert welcomed[0] == (welcomed + received)[0];
    assert received == (welcomed + received)[1..];
  }

  /** The child up to its welcome: the one-shot listener has been answered and is gone. */
  method Greeted<M(!new)>(codec: Codec<M>, early: seq<string>, ghost welcome: M, ghost all: seq<M>)
        returns (conn: Connection<M>)
    requires Sound(codec) && FramesFit(codec, all)
    requires Wire(codec, [welcome]) <= Concat(early) <= Wire(codec, all)
    ensures fresh(conn) && conn.Valid() && conn.codec == codec && !conn.destroyed && conn.stream == Concat(early)
    ensures conn.listener.Nobody? && |conn.welcomed| == 1 && '\n' !in conn.buffer
  {
    conn := new Connection(codec, "");
    conn.AwaitFirst();
    assert "" + Concat(early) == Concat(early);
    Feed(conn, early, all);
    assert early != [] && conn.listener.Nobody? by {
      WireSplits(codec, [welcome]);
      FirstArrived(codec, welcome, conn.drained, conn.buffer);
    }
  }

  /** Once the welcome's frame is in the stream, a drained connection has delivered something. */
  lemma {:induction false} FirstArrived<M(!new)>(k: Codec<M>, welcome: M, drained: string, buffer: string)
    requires Sound(k) && Whole(drained, '\n') && '\n' !in buffer && Wire(k, [welcome]) <= drained + buffer
    requires AllGood(k, LinesOf(drained, '\n'))
    ensures Messages(k, LinesOf(drained, '\n')) != []
  {
    var first := k.encode(welcome);
    var text := drained + buffer;
    assert Wire(k, [welcome]) == first + ['\n'] + "";
    var more := text[|first| + 1..];
    assert text == first + ['\n'] + more;
    SplitAt(first, more, '\n');
    SplitWhole(first, '\n');
    LinesOfConcat(drained, buffer, '\n');
    SplitWhole(buffer, '\n');
    var lines := LinesOf(drained, '\n');
    assert lines + [buffer] == [first] + Split(more, '\n');
    assert |lines| >= 1 && lines[0] == (lines + [buffer])[0];
    SomeMessage(k, lines);
  }

  lemma {:induction false} SomeMessage<M>(k: Codec<M>, lines: seq<string>)
    requires AllGood(k, lines) && lines != [] && lines[0] != ""
    ensures Messages(k, lines) != []
  {
    if |lines| > 1 {
      SomeMessage(k, lines[..|lines| - 1]);
    }
  }

  /**
   * `wrapSocket` with what followed the hello line: the parent's listener, the drain scheduled for it, and the
   * later chunks.
   */
  method HandOver<M(!new)>(codec: Codec<M>, rest: string, later: seq<string>, ghost ms: seq<M>)
        returns (conn: Connection<M>)
    requires Sound(codec) && FramesFit(codec, ms) && rest + Concat(later) == Wire(codec, ms)
    ensures fresh(conn) && !conn.destroyed
    ensures conn.received == ms && conn.backlog == [] && conn.welcomed == []
  {
    conn := Wrapped(codec, rest, ms, Concat(later));
    Feed(conn, later, ms);
    AllDelivered(conn, ms);
    assert conn.welcomed + conn.received == conn.received;
  }

  method Wrapped<M(!new)>(codec: Codec<M>, rest: string, ghost ms: seq<M>, ghost later: string)
        returns (conn: Connection<M>)
    requires Sound(codec) && FramesFit(codec, ms) && rest + later == Wire(codec, ms)
    ensures fresh(conn) && conn.Valid() && conn.codec == codec && !conn.destroyed && conn.stream == rest
    ensures conn.listener.Feature? && conn.welcomed == [] && '\n' !in conn.buffer
  {
    conn := new Connection(codec, rest);
    conn.Subscribe();
    PrefixInLimits(codec, ms, rest);
    conn.Drain();
  }

  /** Some first chunks hold no newline and more than a hello may. */
  predicate Overlong(chunks: seq<string>, n: nat) {
    n <= |chunks| && '\n' !in Concat(chunks[..n]) && |Concat(chunks[..n])| > MAX_HELLO_CHARS
  }

  // ----- the parent's verdict on a hello

  datatype Reason = Malformed | Version | Auth | Generation | Busy

  /** What the parent's channel holds against a hello. */
  datatype Launch = Launch(credential: string, generation: int, live: bool, closed: bool)

  /** A hello of this launch's child: the right shape, version, credential and generation. */
  predicate Genuine(hello: Option<Json>, launch: Launch) {
    && Gives(hello, "t", Text("hello"))
    && Gives(hello, "v", Number(1.0))
    && Gives(hello, "cred", Text(launch.credential))
    && Gives(hello, "gen", Number(launch.generation as real))
  }

  /** The hello is an object whose field is this. */
  predicate Gives(hello: Option<Json>, key: string, value: Json) {
    hello.Some? && hello.value.Object? && key in hello.value.fields && hello.value.fields[key] == value
  }

  /** Why a parsed hello line is refused, if it is: the first of shape, version, credential and generation off. */
  function Refusal(hello: Option<Json>, launch: Launch): (r: Option<Reason>)
    ensures r == Some(Malformed) <==> !Gives(hello, "t", Text("hello"))
    ensures r == Some(Version) <==> Gives(hello, "t", Text("hello")) && !Gives(hello, "v", Number(1.0))
    ensures r == Some(Auth) <==>
              && Gives(hello, "t", Text("hello")) && Gives(hello, "v", Number(1.0))
              && !Gives(hello, "cred", Text(launch.credential))
    ensures r == Some(Generation) <==>
              && Gives(hello, "t", Text("hello")) && Gives(hello, "v", Number(1.0))
              && Gives(hello, "cred", Text(launch.credential))
              && !Gives(hello, "gen", Number(launch.generation as real))
    ensures r.None? <==> Genuine(hello, launch) && !launch.live
    ensures r == Some(Busy) <==> Genuine(hello, launch) && launch.live
  {
    if Field(hello, "t") != Some(Text("hello")) then Some(Malformed)
    else if Field(hello, "v") != Some(Number(CHANNEL_PROTOCOL_VERSION as real)) then Some(Version)
    else if Field(hello, "cred") != Some(Text(launch.credential)) then Some(Auth)
    else if Field(hello, "gen") != Some(Number(launch.generation as real)) then Some(Generation)
    else if launch.live then Some(Busy)
    else None
  }

  /** `Dropped` answers nothing: the channel closed before the hello line was complete. */
  datatype Answer = Accepted | Refused(reason: Reason) | Dropped

  /**
   * The parent's side, however the stream is chunked: a hello line that runs too long is refused, as is one
   * that is not this launch's or comes while a connection is live. An accepted one's following bytes are
   * handed to the connection, and every message the child sends after its hello reaches the parent once
   * and in order.
   */
  method ParentReceives<M(!new)>(codec: Codec<M>, chunks: seq<string>, launch: Launch, parse: string -> Option<Json>,
        ghost hello: string, ghost ms: seq<M>)
      returns (answer: Answer, conn: Option<Connection<M>>)
    requires Sound(codec) && FramesFit(codec, ms) && '\n' !in hello
    requires Concat(chunks) == hello + ['\n'] + Wire(codec, ms)
    ensures (exists n: nat :: Overlong(chunks, n)) ==> answer == Refused(Malformed) && |hello| > MAX_HELLO_CHARS
    ensures (forall n: nat :: !Overlong(chunks, n)) ==>
              && (answer.Dropped? <==> launch.closed)
              && (answer.Accepted? <==> !launch.closed && Genuine(parse(hello), launch) && !launch.live)
              && (answer.Refused? ==> Refusal(parse(hello), launch) == Some(answer.reason))
    ensures conn.Some? <==> answer.Accepted?
    ensures conn.Some? ==>
              && fresh(conn.value) && !conn.value.destroyed
              && conn.value.received == ms && conn.value.backlog == [] && conn.value.welcomed == []
  {
    var line, rest, read := ReadHello(chunks, hello, Wire(codec, ms));
    if line.None? {
      return Refused(Malformed), None;
    }
    if launch.closed {
      return Dropped, None;
    }
    var refusal := Refusal(parse(line.value), launch);
    if refusal.Some? {
      return Refused(refusal.value), None;
    }
    var accepted := HandOver(codec, rest, chunks[read..], ms);
    return Accepted, Some(accepted);
  }

  /** The hello line, the bytes that arrived with it, and how many chunks that took; nothing when it runs too long. */
  method ReadHello(chunks: seq<string>, ghost hello: string, ghost wire: string)
      returns (line: Option<string>, rest: string, read: nat)
    requires '\n' !in hello && Concat(chunks) == hello + ['\n'] + wire
    ensures line.None? <==> exists n: nat :: Overlong(chunks, n)
    ensures |hello| <= MAX_HELLO_CHARS ==> line.Some?
    ensures line.Some? ==> line.value == hello && read <= |chunks| && rest + Concat(chunks[read..]) == wire
  {
    var buffer := "";
    read := 0;
    var index := -1;
    while read < |chunks| && index < 0
      invariant 0 <= read <= |chunks| && index == IndexOf(buffer, '\n')
      invariant buffer == Concat(chunks[..read])
      invariant forall n | 0 <= n <= read :: !Overlong(chunks, n)
    {
      ConcatStep(chunks, read);
      buffer := buffer + chunks[read];
      index := IndexOf(buffer, '\n');
      read := read + 1;
      if index < 0 && |buffer| > MAX_HELLO_CHARS {
        assert Overlong(chunks, read);
        OverlongHello(chunks, hello, wire, read);
        return None, "", read;
      }
    }
    ConcatSplit(chunks, read);
    assert read == |chunks| ==> Concat(chunks[read..]) == "";
    HelloRead(hello, wire, buffer, Concat(chunks[read..]), index);
    forall n: nat
      ensures !Overlong(chunks, n)
    {
      if read < n <= |chunks| {
        StaysTerminated(chunks, read, n);
      }
    }
    line, rest := Some(buffer[..index]), buffer[index + 1..];
  }

  /** Chunks that run too long are all part of the hello. */
  lemma {:induction false} OverlongHello(chunks: seq<string>, hello: string, wire: string, n: nat)
    requires Concat(chunks) == hello + ['\n'] + wire && Overlong(chunks, n)
    ensures |hello| > MAX_HELLO_CHARS
  {
    var buffer, text := Concat(chunks[..n]), hello + ['\n'] + wire;
    ConcatSplit(chunks, n);
    assert forall j | 0 <= j < |buffer| :: buffer[j] == text[j] != '\n';
    assert text[|hello|] == '\n';
  }

  lemma {:induction false} StaysTerminated(chunks: seq<string>, a: nat, b: nat)
    requires a <= b <= |chunks| && '\n' in Concat(chunks[..a])
    ensures '\n' in Concat(chunks[..b])
  {
    ConcatSplit(chunks[..b], a);
    assert chunks[..b][..a] == chunks[..a];
  }

  /** Where the first newline of what was read falls, if it holds one, as it must once all is read. */
  lemma {:induction false} HelloRead(hello: string, wire: string, buffer: string, later: string, index: int)
    requires '\n' !in hello && buffer + later == hello + ['\n'] + wire
    requires index == IndexOf(buffer, '\n') && (index < 0 ==> later == "")
    ensures 0 <= index < |buffer| && buffer[..index] == hello && buffer[index + 1..] + later == wire
  {
    assert (hello + ['\n'] + wire)[|hello|] == '\n';
    assert later == "" ==> buffer + later == buffer;
    assert later == "" ==> '\n' in buffer;
    HelloLine(hello, wire, buffer, index);
    RestOfHello(hello, wire, buffer, buffer[index + 1..], later);
  }

  lemma {:induction false} RestOfHello(hello: string, wire: string, buffer: string, rest: string, later: string)
    requires buffer + later == hello + ['\n'] + wire && buffer == hello + ['\n'] + rest
    ensures rest + later == wire
  {
    assert hello + ['\n'] + (rest + later) == buffer + later;
    SameRest(hello + ['\n'], rest + later, wire);
  }

  lemma {:induction false} ConcatSplit(chunks: seq<string>, i: nat)
    requires i <= |chunks|
    ensures Concat(chunks) == Concat(chunks[..i]) + Concat(chunks[i..])
  {
    if i == |chunks| {
      assert chunks[..i] == chunks;
    } else {
      ConcatSplitLast(chunks, i);
    }
  }

  lemma {:induction false} ConcatSplitLast(chunks: seq<string>, i: nat)
    requires i < |chunks|
    ensures Concat(chunks) == Concat(chunks[..i]) + Concat(chunks[i..])
    decreases |chunks|
  {
    var init, tail := chunks[..|chunks| - 1], chunks[i..];
    assert tail[..|tail| - 1] == init[i..] && init[..i] == chunks[..i];
    if i < |init| {
      ConcatSplitLast(init, i);
    } else {
      assert init[i..] == [] && init == chunks[..i];
    }
  }

  lemma {:induction false} SameRest(head: string, a: string, b: string)
    requires head + a == head + b
    ensures a == b
  {
    assert a == (head + a)[|head|..] && b == (head + b)[|head|..];
  }

  lemma {:induction false} HelloLine(hello: string, rest: string, buffer: string, index: nat)
    requires '\n' !in hello && buffer <= hello + ['\n'] + rest
    requires index < |buffer| && buffer[index] == '\n' && '\n' !in buffer[..index]
    ensures buffer[..index] == hello && buffer[index + 1..] <= rest
    ensures buffer == hello + ['\n'] + buffer[index + 1..]
  {
    var text := hello + ['\n'] + rest;
    assert text[|hello|] == '\n' && forall j | 0 <= j < |hello| :: text[j] == hello[j];
    assert forall j | 0 <= j < index :: buffer[..index][j] == text[j];
    assert index == |hello|;
    assert text[|hello| + 1..] == rest;
  }
}
