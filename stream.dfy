/**
 * The chunk loop of the streaming turn (src/ws.rs:192-222) as a function on
 * the items the upstream body stream yields, together with what it
 * promises: only the first decoded fragment loses its leading whitespace,
 * undecodable items are skipped, every Swap carries the whole reply so far,
 * and the loop stops at a `done` chunk or at the first send the delta
 * channel refuses, keeping the fragment it had already appended.
 */
module Stream {
  import opened Models
  import opened Ollama

  /** One item of the upstream body stream as the loop sees it after the two
      `map` adapters of ws.rs:179-180. */
  datatype StreamItem =
    | TransportError                     // the byte stream yields `Err`: `chunk.unwrap()` panics
    | Undecodable                        // serde cannot decode the bytes as a chunk
    | Decoded(chunk: ChatResponseStream)

  /** `char::is_whitespace`, the Unicode White_Space property. */
  predicate IsWhitespace(c: char)
  {
    var n := c as int;
    || 9 <= n <= 13 || n == 0x20 || n == 0x85 || n == 0xA0 || n == 0x1680
    || 0x2000 <= n <= 0x200A || n == 0x2028 || n == 0x2029 || n == 0x202F
    || n == 0x205F || n == 0x3000
  }

  /** `str::trim_start`: the longest suffix that does not start with
      whitespace. */
  function TrimStart(s: string): (r: string)
    ensures |r| <= |s|
    ensures forall i :: 0 <= i < |s| - |r| ==> IsWhitespace(s[i])
    ensures r != [] ==> !IsWhitespace(r[0])
    decreases |s|
  {
    if s != [] && IsWhitespace(s[0]) then TrimStart(s[1..]) else s
  }

  /** What `trim_start` keeps is the end of its input, unchanged. */
  lemma {:induction false} TrimStartIsSuffix(s: string)
    ensures TrimStart(s) == s[|s| - |TrimStart(s)|..]
    decreases |s|
  {
    if s != [] && IsWhitespace(s[0]) {
      TrimStartIsSuffix(s[1..]);
      assert s[1..][|s| - 1 - |TrimStart(s)|..] == s[|s| - |TrimStart(s)|..];
    }
  }

  /** The fragment appended for a decoded chunk: trimmed while
      `is_first_chunk` holds, verbatim afterwards. */
  function Fragment(content: string, first: bool): string
  {
    if first then TrimStart(content) else content
  }

  /** Why the loop ended. */
  datatype StreamEnd =
    | Exhausted       // `stream.next()` returned `None`
    | DoneChunk       // a chunk said `done`
    | ChannelClosed   // a Swap send failed
    | Panicked        // a transport error reached `unwrap`

  /** The accumulator at the end, the messages of the Swap frames queued
      (in order), and how many items were taken from the stream. */
  datatype Fold = Fold(reply: Message, swaps: seq<Message>, consumed: nat, end: StreamEnd)

  /** The loop on the items still to come, with accumulator `reply`, the
      `is_first_chunk` flag `first`, and `room` further sends that the delta
      channel accepts. */
  function Consume(items: seq<StreamItem>, reply: Message, first: bool, room: nat): (f: Fold)
    ensures f.consumed <= |items|
    ensures items != [] ==> 1 <= f.consumed
    decreases |items|
  {
    if items == [] then Fold(reply, [], 0, Exhausted)
    else match items[0]
      case TransportError => Fold(reply, [], 1, Panicked)
      case Undecodable =>
        var f := Consume(items[1..], reply, first, room);
        f.(consumed := f.consumed + 1)
      case Decoded(c) =>
        var next := UpdateContent(reply, Fragment(c.message.content, first));
        if room == 0 then Fold(next, [], 1, ChannelClosed)
        else if c.done then Fold(next, [next], 1, DoneChunk)
        else
          var f := Consume(items[1..], next, false, room - 1);
          f.(swaps := [next] + f.swaps, consumed := f.consumed + 1)
  }

  // ---------------------------------------------------------------------------
  // Reference definitions: the fragments, one per decoded item

  /** The content of every decoded item, in stream order. */
  function Contents(items: seq<StreamItem>): seq<string>
    decreases |items|
  {
    if items == [] then []
    else if items[0].Decoded? then [items[0].chunk.message.content] + Contents(items[1..])
    else Contents(items[1..])
  }

  /** The fragments the loop appends, one per decoded item, the first one
      trimmed when `first` holds. */
  function Fragments(items: seq<StreamItem>, first: bool): seq<string>
    decreases |items|
  {
    if items == [] then []
    else if items[0].Decoded? then [Fragment(items[0].chunk.message.content, first)] + Fragments(items[1..], false)
    else Fragments(items[1..], first)
  }

  function Concat(parts: seq<string>): string
    decreases |parts|
  {
    if parts == [] then "" else parts[0] + Concat(parts[1..])
  }

  lemma ConcatCons(part: string, parts: seq<string>)
    ensures Concat([part] + parts) == part + Concat(parts)
  {
    assert ([part] + parts)[1..] == parts;
  }

  lemma FragmentsCons(item: StreamItem, items: seq<StreamItem>, first: bool)
    ensures Fragments([item] + items, first)
         == if item.Decoded? then [Fragment(item.chunk.message.content, first)] + Fragments(items, false)
            else Fragments(items, first)
  {
    assert ([item] + items)[1..] == items;
  }

  /** Only the first decoded fragment is trimmed; items that fail to decode
      are passed over without using up the trim. */
  lemma {:induction false} TrimOnlyFirst(items: seq<StreamItem>, first: bool)
    ensures |Fragments(items, first)| == |Contents(items)|
    ensures forall i :: 0 <= i < |Contents(items)| ==>
              Fragments(items, first)[i] == Fragment(Contents(items)[i], first && i == 0)
    decreases |items|
  {
    if items != [] {
      if items[0].Decoded? {
        TrimOnlyFirst(items[1..], false);
      } else {
        TrimOnlyFirst(items[1..], first);
      }
    }
  }

  // ---------------------------------------------------------------------------
  // What the loop accumulates and sends

  lemma SliceCons(items: seq<StreamItem>, n: nat)
    requires 1 <= n <= |items|
    ensures items[..n] == [items[0]] + items[1..][..n - 1]
  {
  }

  /** The fragments of the consumed items when the first item alone was
      consumed, or the first item and then `g` items of the rest. */
  lemma ConsumedFragments(items: seq<StreamItem>, first: bool, n: nat)
    requires 1 <= n <= |items|
    ensures Fragments(items[..n], first)
         == if items[0].Decoded? then [Fragment(items[0].chunk.message.content, first)] + Fragments(items[1..][..n - 1], false)
            else Fragments(items[1..][..n - 1], first)
  {
    SliceCons(items, n);
    FragmentsCons(items[0], items[1..][..n - 1], first);
  }

  /** The reply at the end is the starting content followed by the fragments
      of exactly the items the loop consumed, nothing from later items. */
  lemma {:induction false} ConsumeReply(items: seq<StreamItem>, reply: Message, first: bool, room: nat)
    ensures var f := Consume(items, reply, first, room);
            f.reply == reply.(content := reply.content + Concat(Fragments(items[..f.consumed], first)))
    decreases |items|
  {
    if items == [] {
      return;
    }
    var f := Consume(items, reply, first, room);
    ConsumedFragments(items, first, f.consumed);
    if items[0].Undecodable? {
      ConsumeReply(items[1..], reply, first, room);
    } else if items[0].Decoded? {
      var frag := Fragment(items[0].chunk.message.content, first);
      var next := UpdateContent(reply, frag);
      if room == 0 || items[0].chunk.done {
        ConcatCons(frag, []);
      } else {
        var g := Consume(items[1..], next, false, room - 1);
        ConsumeReply(items[1..], next, false, room - 1);
        ReplyStep(reply, frag, Fragments(items[1..][..g.consumed], false), g.reply);
      }
    }
  }

  /** The inductive step of ConsumeReply: one more fragment in front. */
  lemma ReplyStep(reply: Message, frag: string, rest: seq<string>, last: Message)
    requires last == UpdateContent(reply, frag).(content := reply.content + frag + Concat(rest))
    ensures last == reply.(content := reply.content + Concat([frag] + rest))
  {
    ConcatCons(frag, rest);
    assert reply.content + frag + Concat(rest) == reply.content + (frag + Concat(rest));
  }

  /** One Swap per consumed decoded item, except the item whose send was
      refused; never more Swaps than the channel accepts. */
  lemma {:induction false} ConsumeSwapCount(items: seq<StreamItem>, reply: Message, first: bool, room: nat)
    ensures var f := Consume(items, reply, first, room);
            && |Fragments(items[..f.consumed], first)| == |f.swaps| + (if f.end == ChannelClosed then 1 else 0)
            && |f.swaps| <= room
    decreases |items|
  {
    if items == [] {
      return;
    }
    var f := Consume(items, reply, first, room);
    ConsumedFragments(items, first, f.consumed);
    match items[0]
    case TransportError =>
    case Undecodable =>
      ConsumeSwapCount(items[1..], reply, first, room);
    case Decoded(c) =>
      var next := UpdateContent(reply, Fragment(c.message.content, first));
      if room != 0 && !c.done {
        ConsumeSwapCount(items[1..], next, false, room - 1);
      }
  }

  /** Each Swap carries the whole reply so far: the k-th one holds the
      starting content followed by the first k+1 fragments. */
  lemma {:induction false} ConsumeSwaps(items: seq<StreamItem>, reply: Message, first: bool, room: nat)
    ensures var f := Consume(items, reply, first, room);
            var fs := Fragments(items[..f.consumed], first);
            && |f.swaps| <= |fs|
            && forall k :: 0 <= k < |f.swaps| ==> f.swaps[k] == reply.(content := reply.content + Concat(fs[..k + 1]))
    decreases |items|
  {
    if items == [] {
      return;
    }
    var f := Consume(items, reply, first, room);
    ConsumedFragments(items, first, f.consumed);
    ConsumeSwapCount(items, reply, first, room);
    match items[0]
    case TransportError =>
    case Undecodable =>
      ConsumeSwaps(items[1..], reply, first, room);
      assert (var g := Consume(items[1..], reply, first, room);
              var fs := Fragments(items[1..][..g.consumed], first);
              forall k :: 0 <= k < |g.swaps| ==> g.swaps[k] == reply.(content := reply.content + Concat(fs[..k + 1])));
    case Decoded(c) =>
      var frag := Fragment(c.message.content, first);
      var next := UpdateContent(reply, frag);
      if room == 0 || c.done {
        ConcatCons(frag, []);
        assert [frag][..1] == [frag];
      } else {
        var g := Consume(items[1..], next, false, room - 1);
        ConsumeSwaps(items[1..], next, false, room - 1);
        ConsumeSwapCount(items[1..], next, false, room - 1);
        SwapStep(reply, frag, Fragments(items[1..][..g.consumed], false), g.swaps, f.swaps);
      }
  }

  /** The inductive step of ConsumeSwaps: prepending the Swap for one more
      fragment. */
  lemma SwapStep(reply: Message, frag: string, rest: seq<string>, later: seq<Message>, swaps: seq<Message>)
    requires swaps == [UpdateContent(reply, frag)] + later
    requires |later| <= |rest|
    requires forall k :: 0 <= k < |later| ==>
               later[k] == UpdateContent(reply, frag).(content := reply.content + frag + Concat(rest[..k + 1]))
    ensures forall k :: 0 <= k < |swaps| ==>
              swaps[k] == reply.(content := reply.content + Concat(([frag] + rest)[..k + 1]))
  {
    var fs := [frag] + rest;
    forall k | 0 <= k < |swaps|
      ensures swaps[k] == reply.(content := reply.content + Concat(fs[..k + 1]))
    {
      if k == 0 {
        assert fs[..1] == [frag] + [];
        ConcatCons(frag, []);
      } else {
        assert fs[..k + 1] == [frag] + rest[..k];
        ConcatCons(frag, rest[..k]);
        assert reply.content + frag + Concat(rest[..k]) == reply.content + (frag + Concat(rest[..k]));
      }
    }
  }

  /** The Swaps and the final reply only extend the starting content: each
      is the accumulator with only its content changed, and the last Swap
      is the final reply unless the channel refused a send after the last
      fragment. */
  lemma {:induction false} SwapsGrow(items: seq<StreamItem>, reply: Message, first: bool, room: nat)
    ensures var f := Consume(items, reply, first, room);
            && reply.content <= f.reply.content
            && f.reply.(content := reply.content) == reply
            && (forall k :: 0 <= k < |f.swaps| ==>
                  reply.content <= f.swaps[k].content && f.swaps[k].(content := reply.content) == reply)
            && (f.swaps != [] && f.end != ChannelClosed ==> f.swaps[|f.swaps| - 1] == f.reply)
            && (f.swaps == [] && f.end != ChannelClosed ==> f.reply == reply)
    decreases |items|
  {
    if items == [] {
      return;
    }
    match items[0]
    case TransportError =>
    case Undecodable =>
      SwapsGrow(items[1..], reply, first, room);
    case Decoded(c) =>
      var next := UpdateContent(reply, Fragment(c.message.content, first));
      if room != 0 && !c.done {
        var g := Consume(items[1..], next, false, room - 1);
        SwapsGrow(items[1..], next, false, room - 1);
        assert Consume(items, reply, first, room).swaps == [next] + g.swaps;
      }
  }

  /** The Swap contents only ever grow: each extends the one before. */
  lemma {:induction false} SwapsOrdered(items: seq<StreamItem>, reply: Message, first: bool, room: nat)
    ensures var f := Consume(items, reply, first, room);
            forall k :: 0 < k < |f.swaps| ==> f.swaps[k - 1].content <= f.swaps[k].content
    decreases |items|
  {
    if items == [] {
      return;
    }
    match items[0]
    case TransportError =>
    case Undecodable =>
      SwapsOrdered(items[1..], reply, first, room);
      assert (var f := Consume(items[1..], reply, first, room);
            forall k :: 0 < k < |f.swaps| ==> f.swaps[k - 1].content <= f.swaps[k].content);
    case Decoded(c) =>
      var next := UpdateContent(reply, Fragment(c.message.content, first));
      if room != 0 && !c.done {
        var f := Consume(items, reply, first, room);
        var g := Consume(items[1..], next, false, room - 1);
        SwapsOrdered(items[1..], next, false, room - 1);
        SwapsGrow(items[1..], next, false, room - 1);
        assert f.swaps == [next] + g.swaps;
        forall k | 0 < k < |f.swaps|
          ensures f.swaps[k - 1].content <= f.swaps[k].content
        {
          assert f.swaps[k] == g.swaps[k - 1];
          if 1 < k {
            assert f.swaps[k - 1] == g.swaps[k - 2];
          }
        }
      }
  }

  /** Where the loop stops: at the end of the stream, at the first `done`
      chunk, at the first refused send (after exactly `room` Swaps), or at
      a transport error; no earlier item could have stopped it. */
  lemma {:induction false} ConsumeStops(items: seq<StreamItem>, reply: Message, first: bool, room: nat)
    ensures var f := Consume(items, reply, first, room);
            && (f.end == Exhausted ==> f.consumed == |items|)
            && (f.end == DoneChunk ==> items[f.consumed - 1].Decoded? && items[f.consumed - 1].chunk.done)
            && (f.end == ChannelClosed ==> items[f.consumed - 1].Decoded? && |f.swaps| == room)
            && (f.end == Panicked ==> items[f.consumed - 1] == TransportError)
            && forall i :: 0 <= i < f.consumed && (f.end == Exhausted || i < f.consumed - 1) ==>
                 items[i] != TransportError && (items[i].Decoded? ==> !items[i].chunk.done)
    decreases |items|
  {
    if items == [] {
      return;
    }
    var f := Consume(items, reply, first, room);
    match items[0]
    case TransportError =>
    case Undecodable =>
      ConsumeStops(items[1..], reply, first, room);
    case Decoded(c) =>
      var next := UpdateContent(reply, Fragment(c.message.content, first));
      if room != 0 && !c.done {
        ConsumeStops(items[1..], next, false, room - 1);
      }
  }

  /** Inserting an undecodable item anywhere changes neither the reply, nor
      the Swaps, nor how the loop ends: a malformed chunk never aborts the
      turn and never uses up the trim. */
  lemma {:induction false} UndecodableIsSkipped(items: seq<StreamItem>, at: nat, reply: Message, first: bool, room: nat)
    requires at <= |items|
    ensures var f := Consume(items, reply, first, room);
            var g := Consume(items[..at] + [Undecodable] + items[at..], reply, first, room);
            g.reply == f.reply && g.swaps == f.swaps && g.end == f.end
    decreases |items|
  {
    var longer := items[..at] + [Undecodable] + items[at..];
    if at == 0 {
      assert longer == [Undecodable] + items;
      assert longer[1..] == items;
    } else {
      assert longer[0] == items[0];
      assert longer[1..] == items[1..][..at - 1] + [Undecodable] + items[1..][at - 1..];
      match items[0]
      case TransportError =>
      case Undecodable =>
        UndecodableIsSkipped(items[1..], at - 1, reply, first, room);
      case Decoded(c) =>
        var next := UpdateContent(reply, Fragment(c.message.content, first));
        if room != 0 && !c.done {
          UndecodableIsSkipped(items[1..], at - 1, next, false, room - 1);
        }
    }
  }

  /** One unfolding of `Consume` at position `i`. */
  lemma ConsumeAt(items: seq<StreamItem>, i: nat, reply: Message, first: bool, room: nat)
    requires i < |items|
    ensures Consume(items[i..], reply, first, room)
         == match items[i]
            case TransportError => Fold(reply, [], 1, Panicked)
            case Undecodable =>
              var f := Consume(items[i + 1..], reply, first, room);
              f.(consumed := f.consumed + 1)
            case Decoded(c) =>
              var next := UpdateContent(reply, Fragment(c.message.content, first));
              if room == 0 then Fold(next, [], 1, ChannelClosed)
              else if c.done then Fold(next, [next], 1, DoneChunk)
              else
                var f := Consume(items[i + 1..], next, false, room - 1);
                f.(swaps := [next] + f.swaps, consumed := f.consumed + 1)
  {
    assert items[i..][0] == items[i] && items[i..][1..] == items[i + 1..];
  }
}
