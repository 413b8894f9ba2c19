/**
 * The WebSocket side of a chat session (src/ws.rs): one streaming turn
 * (`inference`), and the receiver and sender loops of `handle_socket`,
 * each taken on its own as a sequential loop.
 *
 * A turn sees its surroundings through parameters: the database through a
 * `Store` and one fault per query, the delta channel through the number of
 * sends it accepts before the sender side is gone, and the inference
 * server through either a connection failure or the items of its streamed
 * body. What the turn does to its surroundings is its list of effects, in
 * the order they happen.
 */
module Ws {
  import opened Wrappers
  import opened Models
  import opened Errors
  import opened Ollama
  import opened Db
  import opened Stream

  /** A delta queued for the sender: `ChatAreaAppendMessage` adds a message
      to the chat area, `ChatAreaSwapMessage` replaces the shown message that
      has the same id. */
  datatype Frame = Append(message: Message) | Swap(message: Message)

  /** An effect of the turn on its surroundings. */
  datatype Effect =
    | Stored(message: Message)        // a row written by `create_message`
    | Queued(frame: Frame)            // a frame accepted by the delta channel
    | Requested(params: ChatParams)   // the chat request posted upstream

  /** The outcome of each database call of the turn: `Some` when the
      database reports an error. */
  datatype Faults = Faults(
    lookup: Option<SqlxError>,
    history: Option<SqlxError>,
    storeUser: Option<SqlxError>,
    storeReply: Option<SqlxError>)

  /** What the chat request gets back: a failure of `send()`, or the items
      of the streamed body. */
  datatype Upstream = Unreachable(failure: ReqwestFailure) | Streaming(items: seq<StreamItem>)

  /** Everything a turn depends on besides the store and the prompt: the
      configured model name, the database outcomes, how many sends the
      delta channel accepts, the inference server's answer, and the id and
      time stamp the reply message is created with. */
  datatype Env = Env(
    model: string,
    faults: Faults,
    sendLimit: nat,
    upstream: Upstream,
    replyId: Uuid,
    replyAt: Timestamp)

  /** Why a turn returned early. The crate's `Error` has no case for a
      refused channel send, so it gets its own. */
  datatype TurnError = Failed(error: Error) | SendRefused

  datatype Trace = Trace(result: Result<(), TurnError>, effects: seq<Effect>)

  // ---------------------------------------------------------------------------
  // Views of an effect list

  function Frames(effects: seq<Effect>): seq<Frame>
    decreases |effects|
  {
    if effects == [] then []
    else (if effects[0].Queued? then [effects[0].frame] else []) + Frames(effects[1..])
  }

  function StoredMessages(effects: seq<Effect>): seq<Message>
    decreases |effects|
  {
    if effects == [] then []
    else (if effects[0].Stored? then [effects[0].message] else []) + StoredMessages(effects[1..])
  }

  lemma ViewsAppend(a: seq<Effect>, b: seq<Effect>)
    ensures Frames(a + b) == Frames(a) + Frames(b)
    ensures StoredMessages(a + b) == StoredMessages(a) + StoredMessages(b)
  {
    FramesAppend(a, b);
    StoredAppend(a, b);
  }

  lemma {:induction false} FramesAppend(a: seq<Effect>, b: seq<Effect>)
    ensures Frames(a + b) == Frames(a) + Frames(b)
    decreases |a|
  {
    if a == [] {
      assert a + b == b;
    } else {
      var head := if a[0].Queued? then [a[0].frame] else [];
      assert (a + b)[0] == a[0] && (a + b)[1..] == a[1..] + b;
      FramesAppend(a[1..], b);
      assert head + (Frames(a[1..]) + Frames(b)) == (head + Frames(a[1..])) + Frames(b);
    }
  }

  lemma {:induction false} StoredAppend(a: seq<Effect>, b: seq<Effect>)
    ensures StoredMessages(a + b) == StoredMessages(a) + StoredMessages(b)
    decreases |a|
  {
    if a == [] {
      assert a + b == b;
    } else {
      var head := if a[0].Stored? then [a[0].message] else [];
      assert (a + b)[0] == a[0] && (a + b)[1..] == a[1..] + b;
      StoredAppend(a[1..], b);
      assert head + (StoredMessages(a[1..]) + StoredMessages(b)) == (head + StoredMessages(a[1..])) + StoredMessages(b);
    }
  }

  lemma SingleViews(e: Effect)
    ensures Frames([e]) == if e.Queued? then [e.frame] else []
    ensures StoredMessages([e]) == if e.Stored? then [e.message] else []
  {
    assert [e][1..] == [];
  }

  /** The Swap frames for the given messages, queued in order. */
  function SwapEffects(swaps: seq<Message>): (effects: seq<Effect>)
    ensures |effects| == |swaps|
    ensures forall k :: 0 <= k < |swaps| ==> effects[k] == Queued(Swap(swaps[k]))
  {
    seq(|swaps|, k requires 0 <= k < |swaps| => Queued(Swap(swaps[k])))
  }

  lemma {:induction false} SwapEffectsViews(swaps: seq<Message>)
    ensures |Frames(SwapEffects(swaps))| == |swaps|
    ensures forall k :: 0 <= k < |swaps| ==> Frames(SwapEffects(swaps))[k] == Swap(swaps[k])
    ensures StoredMessages(SwapEffects(swaps)) == []
    decreases |swaps|
  {
    if swaps != [] {
      assert SwapEffects(swaps)[1..] == SwapEffects(swaps[1..]);
      SwapEffectsViews(swaps[1..]);
    }
  }

  // ---------------------------------------------------------------------------
  // The turn, as a function of its inputs

  /** The empty assistant message the turn announces before streaming. */
  function Placeholder(prompt: Message, env: Env): (m: Message)
    ensures m.content == "" && m.role == "assistant"
    ensures m.id == env.replyId && m.conversationId == prompt.conversationId
  {
    AssistantMessage("", prompt.conversationId, env.replyId, env.replyAt)
  }

  /** The stored history of the prompt's conversation followed by the
      prompt: the messages the request carries. */
  function RequestMessages(messages: seq<Message>, prompt: Message): seq<Message>
  {
    MessagesOf(messages, prompt.conversationId) + [prompt]
  }

  /** Where the turn panics instead of returning: `unwrap` on a missing
      conversation (ws.rs:144-146), `Role::from` on an unknown role name
      while the request is built (ws.rs:168), and `unwrap` on a transport
      error in the body stream (ws.rs:179) if the loop reaches one. */
  predicate Panics(conversations: seq<Conversation>, messages: seq<Message>, prompt: Message, env: Env)
  {
    var faults := env.faults;
    && faults.lookup.None?
    && (|| FindConversation(conversations, prompt.conversationId).None?
        || (&& faults.history.None? && faults.storeUser.None? && 1 <= env.sendLimit
            && (|| !RolesKnown(RequestMessages(messages, prompt))
                || (&& env.upstream.Streaming? && 2 <= env.sendLimit
                    && Consume(env.upstream.items, Placeholder(prompt, env), true, env.sendLimit - 2).end == Panicked))))
  }

  /** The effects of a turn once the request is answered: the placeholder
      announced, one Swap per fragment the chunk loop sends with `room`
      sends left, and the reply stored unless `fault` says the database
      refuses it. */
  function Streamed(placeholder: Message, items: seq<StreamItem>, room: nat, fault: Option<SqlxError>): seq<Effect>
  {
    var f := Consume(items, placeholder, true, room);
    [Queued(Append(placeholder))] + SwapEffects(f.swaps) + (if fault.None? then [Stored(f.reply)] else [])
  }

  /** What that part of the turn writes to the message table. */
  function StoredReply(placeholder: Message, items: seq<StreamItem>, room: nat, fault: Option<SqlxError>): seq<Message>
  {
    if fault.None? then [Consume(items, placeholder, true, room).reply] else []
  }

  lemma StreamedViews(placeholder: Message, items: seq<StreamItem>, room: nat, fault: Option<SqlxError>)
    ensures StoredMessages(Streamed(placeholder, items, room, fault)) == StoredReply(placeholder, items, room, fault)
    ensures Frames(Streamed(placeholder, items, room, fault))
         == [Append(placeholder)] + Frames(SwapEffects(Consume(items, placeholder, true, room).swaps))
    ensures forall k :: 0 <= k < |Streamed(placeholder, items, room, fault)| ==> !Streamed(placeholder, items, room, fault)[k].Requested?
  {
    var f := Consume(items, placeholder, true, room);
    var tail := if fault.None? then [Stored(f.reply)] else [];
    ViewsAppend([Queued(Append(placeholder))], SwapEffects(f.swaps));
    ViewsAppend([Queued(Append(placeholder))] + SwapEffects(f.swaps), tail);
    SwapEffectsViews(f.swaps);
    SingleViews(Queued(Append(placeholder)));
    SingleViews(Stored(f.reply));
  }

  /** The effects of a turn up to the request: the prompt stored, its
      Append queued, the request made. */
  function Opening(prompt: Message, params: ChatParams): seq<Effect>
  {
    [Stored(prompt), Queued(Append(prompt)), Requested(params)]
  }

  /** The turn gets as far as building the request only with every role in
      it known: `Role::from` panics on any other (ws.rs:168). */
  predicate RequestConvertible(messages: seq<Message>, prompt: Message, env: Env)
  {
    env.faults.lookup.None? && env.faults.history.None? && env.faults.storeUser.None? && 1 <= env.sendLimit
    ==> RolesKnown(RequestMessages(messages, prompt))
  }

  /** `inference` (ws.rs:133-231) on a store holding `conversations` and
      `messages`: the turn's result and its effects in order. Where the
      turn panics instead (see `Panics`) the value says nothing. */
  function Turn(conversations: seq<Conversation>, messages: seq<Message>, prompt: Message, env: Env): Trace
    requires RequestConvertible(messages, prompt, env)
  {
    var faults := env.faults;
    if faults.lookup.Some? then Trace(Err(Failed(DatabaseError(faults.lookup.value))), [])
    else if faults.history.Some? then Trace(Err(Failed(DatabaseError(faults.history.value))), [])
    else if faults.storeUser.Some? then Trace(Err(Failed(DatabaseError(faults.storeUser.value))), [])
    else if env.sendLimit == 0 then Trace(Err(SendRefused), [Stored(prompt)])
    else
      var opening := Opening(prompt, ChatParams(env.model, FromMessages(RequestMessages(messages, prompt)), true));
      match env.upstream
      case Unreachable(failure) => Trace(Err(Failed(ReqwestError(failure))), opening)
      case Streaming(items) =>
        if env.sendLimit == 1 then Trace(Err(SendRefused), opening)
        else Trace(Ok(()), opening + Streamed(Placeholder(prompt, env), items, env.sendLimit - 2, faults.storeReply))
  }

  /** The effects of a turn that runs to its end: the opening, then the
      placeholder, the Swaps and the reply. */
  lemma TurnOkEffects(conversations: seq<Conversation>, messages: seq<Message>, prompt: Message, env: Env)
    requires RequestConvertible(messages, prompt, env)
    requires Turn(conversations, messages, prompt, env).result.Ok?
    ensures env.upstream.Streaming? && 2 <= env.sendLimit && RolesKnown(RequestMessages(messages, prompt))
    ensures Turn(conversations, messages, prompt, env).effects
         == Opening(prompt, ChatParams(env.model, FromMessages(RequestMessages(messages, prompt)), true))
            + Streamed(Placeholder(prompt, env), env.upstream.items, env.sendLimit - 2, env.faults.storeReply)
  {
  }

  /** The effects of a turn that returns early: nothing when a query fails,
      the stored prompt alone when its Append is refused, the opening
      otherwise. */
  lemma TurnErrEffects(conversations: seq<Conversation>, messages: seq<Message>, prompt: Message, env: Env)
    requires RequestConvertible(messages, prompt, env)
    requires Turn(conversations, messages, prompt, env).result.Err?
    ensures var t := Turn(conversations, messages, prompt, env);
            || t.effects == []
            || t.effects == [Stored(prompt)]
            || (&& RolesKnown(RequestMessages(messages, prompt))
                && t.effects == Opening(prompt, ChatParams(env.model, FromMessages(RequestMessages(messages, prompt)), true)))
  {
  }

  /** The rows a turn writes: none when a query before the insert of the
      prompt fails; otherwise the prompt first, and then, only for a turn
      that runs to its end and only when that insert succeeds, the reply. */
  lemma TurnStores(conversations: seq<Conversation>, messages: seq<Message>, prompt: Message, env: Env)
    requires RequestConvertible(messages, prompt, env)
    ensures var t := Turn(conversations, messages, prompt, env);
            StoredMessages(t.effects)
              == if t.effects == [] then []
                 else [prompt] + (if t.result.Ok? then StoredReply(Placeholder(prompt, env), env.upstream.items, env.sendLimit - 2, env.faults.storeReply) else [])
  {
    if Turn(conversations, messages, prompt, env).result.Ok? {
      TurnStoresOk(conversations, messages, prompt, env);
    } else {
      TurnStoresErr(conversations, messages, prompt, env);
    }
  }

  lemma TurnStoresOk(conversations: seq<Conversation>, messages: seq<Message>, prompt: Message, env: Env)
    requires RequestConvertible(messages, prompt, env)
    requires Turn(conversations, messages, prompt, env).result.Ok?
    ensures Turn(conversations, messages, prompt, env).effects != []
    ensures StoredMessages(Turn(conversations, messages, prompt, env).effects)
         == [prompt] + StoredReply(Placeholder(prompt, env), env.upstream.items, env.sendLimit - 2, env.faults.storeReply)
  {
    TurnOkEffects(conversations, messages, prompt, env);
    var params := ChatParams(env.model, FromMessages(RequestMessages(messages, prompt)), true);
    var streamed := Streamed(Placeholder(prompt, env), env.upstream.items, env.sendLimit - 2, env.faults.storeReply);
    OpeningThen(prompt, params, streamed);
    StreamedViews(Placeholder(prompt, env), env.upstream.items, env.sendLimit - 2, env.faults.storeReply);
  }

  lemma TurnStoresErr(conversations: seq<Conversation>, messages: seq<Message>, prompt: Message, env: Env)
    requires RequestConvertible(messages, prompt, env)
    requires Turn(conversations, messages, prompt, env).result.Err?
    ensures var t := Turn(conversations, messages, prompt, env);
            StoredMessages(t.effects) == if t.effects == [] then [] else [prompt]
  {
    TurnErrEffects(conversations, messages, prompt, env);
    var t := Turn(conversations, messages, prompt, env);
    if t.effects == [Stored(prompt)] {
      SingleViews(Stored(prompt));
    } else if t.effects != [] {
      OpeningThen(prompt, ChatParams(env.model, FromMessages(RequestMessages(messages, prompt)), true), []);
    }
  }

  /** The rows and frames of the effects before the chunk loop, followed by
      `rest`. */
  lemma OpeningThen(prompt: Message, params: ChatParams, rest: seq<Effect>)
    ensures StoredMessages(Opening(prompt, params) + rest) == [prompt] + StoredMessages(rest)
    ensures Frames(Opening(prompt, params) + rest) == [Append(prompt)] + Frames(rest)
    ensures StoredMessages(Opening(prompt, params)) == [prompt] && Frames(Opening(prompt, params)) == [Append(prompt)]
  {
    var opening := Opening(prompt, params);
    assert opening + [] == opening;
    ViewsAppend([Stored(prompt)], [Queued(Append(prompt))]);
    assert [Stored(prompt)] + [Queued(Append(prompt))] + [Requested(params)] == opening;
    ViewsAppend([Stored(prompt)] + [Queued(Append(prompt))], [Requested(params)]);
    ViewsAppend(opening, rest);
    SingleViews(Stored(prompt));
    SingleViews(Queued(Append(prompt)));
    SingleViews(Requested(params));
  }

  // ---------------------------------------------------------------------------
  // What a turn promises

  /** A turn runs to its end exactly when none of its three queries fails,
      the delta channel takes the prompt's Append and the placeholder's, and
      the inference server answers; the insert of the reply plays no part. */
  lemma TurnSucceeds(conversations: seq<Conversation>, messages: seq<Message>, prompt: Message, env: Env)
    requires RequestConvertible(messages, prompt, env)
    ensures Turn(conversations, messages, prompt, env).result.Ok?
        <==> && env.faults.lookup.None? && env.faults.history.None? && env.faults.storeUser.None?
             && 2 <= env.sendLimit && env.upstream.Streaming?
  {
  }

  /** A failed query ends the turn before anything is written or queued; a
      refused Append of the prompt ends it with only the prompt stored. */
  lemma TurnEarlyExits(conversations: seq<Conversation>, messages: seq<Message>, prompt: Message, env: Env)
    requires RequestConvertible(messages, prompt, env)
    ensures var t := Turn(conversations, messages, prompt, env);
            && (env.faults.lookup.Some? || env.faults.history.Some? || env.faults.storeUser.Some? ==>
                  t.result.Err? && t.effects == [])
            && (env.faults.lookup.None? && env.faults.history.None? && env.faults.storeUser.None? && env.sendLimit == 0 ==>
                  t == Trace(Err(SendRefused), [Stored(prompt)]))
  {
  }

  /** The prompt is stored, then its Append frame is queued, and only then
      is the request made, at most once. */
  lemma TurnStoresPromptFirst(conversations: seq<Conversation>, messages: seq<Message>, prompt: Message, env: Env)
    requires RequestConvertible(messages, prompt, env)
    ensures var t := Turn(conversations, messages, prompt, env);
            && (t.effects != [] ==> t.effects[0] == Stored(prompt))
            && (forall k :: 0 <= k < |t.effects| && t.effects[k].Requested? ==>
                  k == 2 && t.effects[..2] == [Stored(prompt), Queued(Append(prompt))])
  {
    if Turn(conversations, messages, prompt, env).result.Ok? {
      TurnRequestedOnce(conversations, messages, prompt, env);
    } else {
      TurnErrEffects(conversations, messages, prompt, env);
    }
  }

  lemma TurnRequestedOnce(conversations: seq<Conversation>, messages: seq<Message>, prompt: Message, env: Env)
    requires RequestConvertible(messages, prompt, env)
    requires Turn(conversations, messages, prompt, env).result.Ok?
    ensures RolesKnown(RequestMessages(messages, prompt))
    ensures var t := Turn(conversations, messages, prompt, env);
            && t.effects[..3] == [Stored(prompt), Queued(Append(prompt)),
                                  Requested(ChatParams(env.model, FromMessages(RequestMessages(messages, prompt)), true))]
            && forall k :: 0 <= k < |t.effects| && t.effects[k].Requested? ==> k == 2
  {
    TurnOkEffects(conversations, messages, prompt, env);
    var t := Turn(conversations, messages, prompt, env);
    var placeholder := Placeholder(prompt, env);
    var rest := Streamed(placeholder, env.upstream.items, env.sendLimit - 2, env.faults.storeReply);
    StreamedViews(placeholder, env.upstream.items, env.sendLimit - 2, env.faults.storeReply);
    assert forall k :: 3 <= k < |t.effects| ==> t.effects[k] == rest[k - 3];
  }

  /** The request carries the stored history of the prompt's conversation
      and then the prompt, each converted in place. */
  lemma RequestConverted(messages: seq<Message>, prompt: Message)
    requires RolesKnown(RequestMessages(messages, prompt))
    ensures var history := MessagesOf(messages, prompt.conversationId);
            && RolesKnown(history) && IsRoleName(prompt.role)
            && FromMessages(RequestMessages(messages, prompt)) == FromMessages(history) + [FromMessage(prompt)]
  {
    var history := MessagesOf(messages, prompt.conversationId);
    var request := RequestMessages(messages, prompt);
    assert forall i :: 0 <= i < |history| ==> request[i] == history[i];
    assert request[|history|] == prompt;
    FromMessagesAppend(history, [prompt]);
  }

  /** A turn past its queries and the prompt's Append starts with the
      prompt stored, its Append queued and the streaming request for the
      converted history and prompt. */
  lemma TurnOpening(conversations: seq<Conversation>, messages: seq<Message>, prompt: Message, env: Env)
    requires RequestConvertible(messages, prompt, env)
    requires env.faults.lookup.None? && env.faults.history.None? && env.faults.storeUser.None? && 1 <= env.sendLimit
    ensures RolesKnown(RequestMessages(messages, prompt))
    ensures var t := Turn(conversations, messages, prompt, env);
            3 <= |t.effects| && t.effects[..3] == Opening(prompt, ChatParams(env.model, FromMessages(RequestMessages(messages, prompt)), true))
  {
    var t := Turn(conversations, messages, prompt, env);
    var params := ChatParams(env.model, FromMessages(RequestMessages(messages, prompt)), true);
    var rest: seq<Effect> := [];
    if t.result.Ok? {
      TurnOkEffects(conversations, messages, prompt, env);
      rest := Streamed(Placeholder(prompt, env), env.upstream.items, env.sendLimit - 2, env.faults.storeReply);
    }
    assert t.effects == Opening(prompt, params) + rest;
    assert (Opening(prompt, params) + rest)[..3] == Opening(prompt, params);
  }

  /** The request lists the stored history of the prompt's conversation and
      then the prompt, each converted in place, and asks for a stream. */
  lemma TurnRequest(conversations: seq<Conversation>, messages: seq<Message>, prompt: Message, env: Env)
    requires RequestConvertible(messages, prompt, env)
    requires env.faults.lookup.None? && env.faults.history.None? && env.faults.storeUser.None? && 1 <= env.sendLimit
    ensures var history := MessagesOf(messages, prompt.conversationId);
            && RolesKnown(history) && IsRoleName(prompt.role)
            && Turn(conversations, messages, prompt, env).effects[2]
               == Requested(ChatParams(env.model, FromMessages(history) + [FromMessage(prompt)], true))
  {
    TurnOpening(conversations, messages, prompt, env);
    RequestConverted(messages, prompt);
    var t := Turn(conversations, messages, prompt, env);
    assert t.effects[2] == t.effects[..3][2];
  }

  /** When the inference server cannot be reached the prompt stays stored,
      only its Append frame has been queued, there is no placeholder, and no
      reply is written. */
  lemma TurnUpstreamUnreachable(conversations: seq<Conversation>, messages: seq<Message>, prompt: Message, env: Env)
    requires RequestConvertible(messages, prompt, env)
    requires env.faults.lookup.None? && env.faults.history.None? && env.faults.storeUser.None? && 1 <= env.sendLimit
    requires env.upstream.Unreachable?
    ensures var t := Turn(conversations, messages, prompt, env);
            && t.result == Err(Failed(ReqwestError(env.upstream.failure)))
            && StoredMessages(t.effects) == [prompt]
            && Frames(t.effects) == [Append(prompt)]
  {
    OpeningThen(prompt, ChatParams(env.model, FromMessages(RequestMessages(messages, prompt)), true), []);
  }

  /** The frames of a turn that runs to its end: Append of the prompt,
      Append of the placeholder, then the Swaps of the chunk loop. */
  lemma TurnFramesInOrder(conversations: seq<Conversation>, messages: seq<Message>, prompt: Message, env: Env)
    requires RequestConvertible(messages, prompt, env)
    requires Turn(conversations, messages, prompt, env).result.Ok?
    ensures Frames(Turn(conversations, messages, prompt, env).effects)
         == [Append(prompt)] + ([Append(Placeholder(prompt, env))]
            + Frames(SwapEffects(Consume(env.upstream.items, Placeholder(prompt, env), true, env.sendLimit - 2).swaps)))
  {
    TurnOkEffects(conversations, messages, prompt, env);
    var placeholder := Placeholder(prompt, env);
    var streamed := Streamed(placeholder, env.upstream.items, env.sendLimit - 2, env.faults.storeReply);
    OpeningThen(prompt, ChatParams(env.model, FromMessages(RequestMessages(messages, prompt)), true), streamed);
    StreamedViews(placeholder, env.upstream.items, env.sendLimit - 2, env.faults.storeReply);
  }

  /** The frames of a turn that runs to its end: Append of the prompt,
      Append of the empty placeholder, then one Swap per fragment sent, the
      k-th carrying the placeholder with the first k+1 fragments as its
      content, so each Swap extends the one before. */
  lemma TurnFrames(conversations: seq<Conversation>, messages: seq<Message>, prompt: Message, env: Env)
    requires RequestConvertible(messages, prompt, env)
    requires Turn(conversations, messages, prompt, env).result.Ok?
    ensures var placeholder := Placeholder(prompt, env);
            var f := Consume(env.upstream.items, placeholder, true, env.sendLimit - 2);
            var fs := Fragments(env.upstream.items[..f.consumed], true);
            var frames := Frames(Turn(conversations, messages, prompt, env).effects);
            && placeholder.content == "" && placeholder.id == env.replyId
            && |frames| == 2 + |f.swaps| && |f.swaps| <= |fs|
            && frames[0] == Append(prompt) && frames[1] == Append(placeholder)
            && (forall k :: 2 <= k < |frames| ==> frames[k] == Swap(placeholder.(content := Concat(fs[..k - 1]))))
  {
    TurnFramesInOrder(conversations, messages, prompt, env);
    TurnSucceeds(conversations, messages, prompt, env);
    var placeholder := Placeholder(prompt, env);
    SwapFrames(env.upstream.items, placeholder, env.sendLimit - 2);
  }

  /** The Swap frames of the chunk loop from an empty placeholder: the k-th
      carries the first k+1 fragments the loop took. */
  lemma SwapFrames(items: seq<StreamItem>, placeholder: Message, room: nat)
    requires placeholder.content == ""
    ensures var f := Consume(items, placeholder, true, room);
            var fs := Fragments(items[..f.consumed], true);
            var frames := Frames(SwapEffects(f.swaps));
            && |frames| == |f.swaps| <= |fs|
            && forall k :: 0 <= k < |frames| ==> frames[k] == Swap(placeholder.(content := Concat(fs[..k + 1])))
  {
    var f := Consume(items, placeholder, true, room);
    var fs := Fragments(items[..f.consumed], true);
    SwapEffectsViews(f.swaps);
    ConsumeSwaps(items, placeholder, true, room);
    ConsumeSwapCount(items, placeholder, true, room);
    forall k | 0 <= k < |f.swaps|
      ensures f.swaps[k] == placeholder.(content := Concat(fs[..k + 1]))
    {
      assert "" + Concat(fs[..k + 1]) == Concat(fs[..k + 1]);
    }
  }

  /** A turn that runs to its end stores the prompt and then, once, the
      reply: the placeholder whose content is the fragments of exactly the
      items the loop took, however the loop ended; a failed insert of the
      reply is ignored. */
  lemma TurnStoresReply(conversations: seq<Conversation>, messages: seq<Message>, prompt: Message, env: Env)
    requires RequestConvertible(messages, prompt, env)
    requires Turn(conversations, messages, prompt, env).result.Ok?
    ensures var placeholder := Placeholder(prompt, env);
            var f := Consume(env.upstream.items, placeholder, true, env.sendLimit - 2);
            var reply := placeholder.(content := Concat(Fragments(env.upstream.items[..f.consumed], true)));
            StoredMessages(Turn(conversations, messages, prompt, env).effects)
              == [prompt] + if env.faults.storeReply.None? then [reply] else []
  {
    var placeholder := Placeholder(prompt, env);
    var f := Consume(env.upstream.items, placeholder, true, env.sendLimit - 2);
    var content := Concat(Fragments(env.upstream.items[..f.consumed], true));
    TurnStoresOk(conversations, messages, prompt, env);
    ConsumeReply(env.upstream.items, placeholder, true, env.sendLimit - 2);
    assert "" + content == content;
  }

  // ---------------------------------------------------------------------------
  // The turn, step by step

  /** `inference` (ws.rs:133-231) against the store: each `?` returns the
      error, a refused send ends the turn, and the effects are recorded as
      they happen. */
  method Inference(store: Store, prompt: Message, env: Env) returns (result: Result<(), TurnError>, effects: seq<Effect>)
    requires !Panics(store.conversations, store.messages, prompt, env)
    modifies store
    ensures var t := Turn(old(store.conversations), old(store.messages), prompt, env);
            result == t.result && effects == t.effects
    ensures store.messages == old(store.messages) + StoredMessages(effects)
    ensures store.conversations == old(store.conversations)
  {
    ghost var t := Turn(store.conversations, store.messages, prompt, env);
    ghost var stored := StoredMessages(t.effects);
    TurnStores(store.conversations, store.messages, prompt, env);
    var history := LoadHistory(store, prompt, env.faults);
    if history.Err? {
      return Err(Failed(history.error)), [];
    }
    var created := store.CreateMessage(prompt, env.faults.storeUser);
    if created.Err? {
      return Err(Failed(created.error)), [];
    }
    if env.sendLimit == 0 {
      return Err(SendRefused), [Stored(prompt)];
    }
    var params := ChatParams(env.model, FromMessages(history.value), true);
    effects := [Stored(prompt), Queued(Append(prompt)), Requested(params)];
    if env.upstream.Unreachable? {
      return Err(Failed(ReqwestError(env.upstream.failure))), effects;
    }
    if env.sendLimit == 1 {
      return Err(SendRefused), effects;
    }
    var assistant := AssistantMessage("", prompt.conversationId, env.replyId, env.replyAt);
    var streamed := Respond(store, assistant, env.upstream.items, env.sendLimit - 2, env.faults.storeReply);
    effects := effects + streamed;
    result := Ok(());
    assert effects == t.effects;
  }

  /** The first two queries of `inference` (ws.rs:142-150): the
      conversation's stored history with the prompt pushed at its end. A
      failed query is returned with `?`. */
  method LoadHistory(store: Store, prompt: Message, faults: Faults) returns (r: Result<seq<Message>, Error>)
    requires faults.lookup.None? ==> FindConversation(store.conversations, prompt.conversationId).Some?
    ensures faults.lookup.Some? ==> r == Err(DatabaseError(faults.lookup.value))
    ensures faults.lookup.None? && faults.history.Some? ==> r == Err(DatabaseError(faults.history.value))
    ensures faults.lookup.None? && faults.history.None? ==> r == Ok(RequestMessages(store.messages, prompt))
  {
    var found := store.GetConversation(prompt.conversationId, faults.lookup);
    if found.Err? {
      return Err(found.error);
    }
    FindConversationFinds(store.conversations, prompt.conversationId);
    // The router only opens a socket for an existing conversation.
    var conversation := found.value.value;
    var messages := store.GetConversationMessages(conversation.id, faults.history);
    if messages.Err? {
      return Err(messages.error);
    }
    r := Ok(messages.value + [prompt]);
  }

  /** The rest of a turn once the request is answered (ws.rs:183-229):
      announce the placeholder, run the chunk loop with `room` sends left,
      and store the reply. */
  method Respond(store: Store, placeholder: Message, items: seq<StreamItem>, room: nat, fault: Option<SqlxError>)
    returns (effects: seq<Effect>)
    requires Consume(items, placeholder, true, room).end != Panicked
    modifies store
    ensures effects == Streamed(placeholder, items, room, fault)
    ensures store.messages == old(store.messages) + StoredReply(placeholder, items, room, fault)
    ensures store.conversations == old(store.conversations)
  {
    var assistant, swapEffects := StreamReply(items, placeholder, room);
    var _ := store.CreateMessage(assistant, fault);
    effects := [Queued(Append(placeholder))] + swapEffects + (if fault.None? then [Stored(assistant)] else []);
  }

  /** The `while let` chunk loop of `inference` (ws.rs:192-222), with
      `room` further sends accepted by the delta channel: it returns the
      accumulated reply and the Swap frames it queued. */
  method StreamReply(items: seq<StreamItem>, placeholder: Message, room: nat) returns (assistant: Message, queued: seq<Effect>)
    requires Consume(items, placeholder, true, room).end != Panicked
    ensures var f := Consume(items, placeholder, true, room);
            assistant == f.reply && queued == SwapEffects(f.swaps)
  {
    ghost var total := Consume(items, placeholder, true, room);
    ghost var swaps: seq<Message> := [];
    assistant := placeholder;
    queued := [];
    var sent := 0;
    var isFirstChunk := true;
    var i := 0;
    while i < |items|
      invariant 0 <= i <= |items|
      invariant sent == |swaps| <= room
      invariant queued == SwapEffects(swaps)
      invariant Continues(total, swaps, Consume(items[i..], assistant, isFirstChunk, room - sent))
    {
      ContinuesAt(total, swaps, items, i, assistant, isFirstChunk, room - sent);
      ghost var first := isFirstChunk;
      match items[i]
      case TransportError =>
        assert false;
      case Undecodable =>
        i := i + 1;
      case Decoded(chunk) =>
        var content := chunk.message.content;
        if isFirstChunk {
          isFirstChunk := false;
          content := TrimStart(content);
        }
        assert content == Fragment(chunk.message.content, first);
        assistant := UpdateContent(assistant, content);
        i := i + 1;
        if sent == room {
          break;
        }
        queued := queued + [Queued(Swap(assistant))];
        sent := sent + 1;
        SwapEffectsSnoc(swaps, assistant);
        swaps := swaps + [assistant];
        if chunk.done {
          break;
        }
    }
    if i == |items| {
      assert items[i..] == [] && swaps + [] == swaps;
    }
  }

  lemma SwapEffectsSnoc(swaps: seq<Message>, m: Message)
    ensures SwapEffects(swaps + [m]) == SwapEffects(swaps) + [Queued(Swap(m))]
  {
  }

  /** One step of the chunk loop against the fold of the whole stream: a
      transport error cannot come next, an undecodable item is skipped, and
      a decoded one either ends the loop, with the reply and the Swaps of
      the whole fold, or leaves a shorter fold to continue with. */
  lemma ContinuesAt(total: Fold, swaps: seq<Message>, items: seq<StreamItem>, i: nat, reply: Message, first: bool, room: nat)
    requires i < |items| && total.end != Panicked
    requires Continues(total, swaps, Consume(items[i..], reply, first, room))
    ensures items[i] != TransportError
    ensures items[i].Undecodable? ==> Continues(total, swaps, Consume(items[i + 1..], reply, first, room))
    ensures items[i].Decoded? ==>
              var next := UpdateContent(reply, Fragment(items[i].chunk.message.content, first));
              if room == 0 then total.reply == next && total.swaps == swaps
              else if items[i].chunk.done then total.reply == next && total.swaps == swaps + [next]
              else Continues(total, swaps + [next], Consume(items[i + 1..], next, false, room - 1))
  {
    ConsumeAt(items, i, reply, first, room);
    if items[i].Decoded? {
      var next := UpdateContent(reply, Fragment(items[i].chunk.message.content, first));
      if room == 0 {
        assert swaps + [] == swaps;
      } else if !items[i].chunk.done {
        var rest := Consume(items[i + 1..], next, false, room - 1);
        assert swaps + ([next] + rest.swaps) == swaps + [next] + rest.swaps;
      }
    }
  }

  ghost predicate Continues(total: Fold, swaps: seq<Message>, rest: Fold)
  {
    total.reply == rest.reply && total.swaps == swaps + rest.swaps && total.end == rest.end
  }

  // ---------------------------------------------------------------------------
  // The inference worker of `handle_socket` (ws.rs:34-45)

  /** Whether a turn panics depends on the stored history only through the
      roles of its rows: with every stored role known it is decided by the
      prompt and the surroundings alone. */
  lemma PanicsIgnoresKnownHistory(conversations: seq<Conversation>, messages: seq<Message>, prompt: Message, env: Env)
    requires RolesKnown(messages)
    ensures Panics(conversations, messages, prompt, env) <==> Panics(conversations, [], prompt, env)
  {
    var request := RequestMessages(messages, prompt);
    assert request[|request| - 1] == prompt;
    if IsRoleName(prompt.role) {
      forall i | 0 <= i < |request|
        ensures IsRoleName(request[i].role)
      {
        if i < |request| - 1 {
          MessagesOfSelects(messages, prompt.conversationId);
          assert request[i] in MessagesOf(messages, prompt.conversationId);
        }
      }
    }
    assert RequestMessages([], prompt) == [prompt];
  }

  /** A turn only ever stores its prompt and an assistant reply, so a table
      whose roles are all known keeps that property. */
  lemma TurnKeepsRolesKnown(conversations: seq<Conversation>, messages: seq<Message>, prompt: Message, env: Env)
    requires RolesKnown(messages)
    requires RequestConvertible(messages, prompt, env)
    ensures var t := Turn(conversations, messages, prompt, env);
            t.result.Ok? ==> RolesKnown(messages + StoredMessages(t.effects))
  {
    if Turn(conversations, messages, prompt, env).result.Ok? {
      TurnStoresOk(conversations, messages, prompt, env);
      TurnOkEffects(conversations, messages, prompt, env);
      RequestConverted(messages, prompt);
      RolesKnownAfterReply(messages, StoredMessages(Turn(conversations, messages, prompt, env).effects),
                           prompt, Placeholder(prompt, env), env.upstream.items, env.sendLimit - 2, env.faults.storeReply);
    }
  }

  lemma RolesKnownAfterReply(messages: seq<Message>, stored: seq<Message>, prompt: Message, placeholder: Message,
                             items: seq<StreamItem>, room: nat, fault: Option<SqlxError>)
    requires RolesKnown(messages) && IsRoleName(prompt.role) && placeholder.role == "assistant"
    requires stored == [prompt] + StoredReply(placeholder, items, room, fault)
    ensures RolesKnown(messages + stored)
  {
    ReplyRoleKnown(placeholder, items, room, fault);
    KnownRolesAppend([prompt], StoredReply(placeholder, items, room, fault));
    KnownRolesAppend(messages, [prompt] + StoredReply(placeholder, items, room, fault));
  }

  /** The reply keeps the placeholder's assistant role. */
  lemma ReplyRoleKnown(placeholder: Message, items: seq<StreamItem>, room: nat, fault: Option<SqlxError>)
    requires placeholder.role == "assistant"
    ensures RolesKnown(StoredReply(placeholder, items, room, fault))
  {
    ConsumeReply(items, placeholder, true, room);
    assert RoleName(Assistant) == "assistant";
  }

  lemma KnownRolesAppend(a: seq<Message>, b: seq<Message>)
    requires RolesKnown(a) && RolesKnown(b)
    ensures RolesKnown(a + b)
  {
    assert forall i :: 0 <= i < |a + b| ==> (a + b)[i] == if i < |a| then a[i] else b[i - |a|];
  }

  /** The message table holding `messages` after the turns `traces` wrote
      their rows, in order. */
  function AfterTurns(messages: seq<Message>, traces: seq<Trace>): seq<Message>
    decreases |traces|
  {
    if traces == [] then messages else AfterTurns(messages, traces[..|traces| - 1]) + StoredMessages(traces[|traces| - 1].effects)
  }

  lemma AfterTurnsSnoc(messages: seq<Message>, traces: seq<Trace>, t: Trace)
    ensures AfterTurns(messages, traces + [t]) == AfterTurns(messages, traces) + StoredMessages(t.effects)
  {
    assert (traces + [t])[..|traces|] == traces;
  }

  /** One turn of the inference worker's loop keeps its invariant. */
  lemma ServeStep(conversations: seq<Conversation>, start: seq<Message>, prompts: seq<Message>, envs: seq<Env>,
                  done: seq<Trace>, tables: seq<seq<Message>>, t: Trace, traces: seq<Trace>, tables': seq<seq<Message>>)
    requires |envs| == |prompts| && |done| == |tables| < |prompts|
    requires forall k :: 0 <= k < |done| ==> tables[k] == AfterTurns(start, done[..k])
    requires forall k {:trigger tables[k]} :: 0 <= k < |done| ==>
               RanTurn(conversations, tables[k], prompts[k], envs[k], done[k])
    requires RanTurn(conversations, AfterTurns(start, done), prompts[|done|], envs[|done|], t)
    requires traces == done + [t] && tables' == tables + [AfterTurns(start, done)]
    ensures forall k :: 0 <= k < |traces| ==> tables'[k] == AfterTurns(start, traces[..k])
    ensures forall k {:trigger tables'[k]} :: 0 <= k < |traces| ==>
              RanTurn(conversations, tables'[k], prompts[k], envs[k], traces[k])
  {
    assert traces[..|done|] == done;
    assert forall k :: 0 <= k < |done| ==> traces[..k] == done[..k];
  }

  /** `t` is what a turn does for `prompt` on a table holding `messages`. */
  ghost predicate RanTurn(conversations: seq<Conversation>, messages: seq<Message>, prompt: Message, env: Env, t: Trace)
  {
    !Panics(conversations, messages, prompt, env) && t == Turn(conversations, messages, prompt, env)
  }

  /** The inference worker's loop: one turn per prompt, the i-th with
      surroundings `envs[i]` and the rows of the earlier turns in the table,
      stopping at the first turn that returns an error. */
  method Serve(store: Store, prompts: seq<Message>, envs: seq<Env>) returns (traces: seq<Trace>, ghost tables: seq<seq<Message>>)
    requires |envs| == |prompts|
    requires RolesKnown(store.messages)
    requires forall k :: 0 <= k < |prompts| ==> !Panics(store.conversations, [], prompts[k], envs[k])
    modifies store
    ensures |traces| <= |prompts| && (prompts != [] ==> traces != [])
    ensures |tables| == |traces|
    ensures forall k :: 0 <= k < |traces| ==> tables[k] == AfterTurns(old(store.messages), traces[..k])
    ensures forall k {:trigger tables[k]} :: 0 <= k < |traces| ==>
              RanTurn(old(store.conversations), tables[k], prompts[k], envs[k], traces[k])
    ensures forall k :: 0 <= k < |traces| - 1 ==> traces[k].result.Ok?
    ensures |traces| < |prompts| ==> traces[|traces| - 1].result.Err?
    ensures store.messages == AfterTurns(old(store.messages), traces)
    ensures store.conversations == old(store.conversations)
  {
    traces := [];
    tables := [];
    var i := 0;
    while i < |prompts|
      invariant 0 <= i <= |prompts| && |traces| == i && |tables| == i
      invariant store.conversations == old(store.conversations)
      invariant store.messages == AfterTurns(old(store.messages), traces)
      invariant RolesKnown(store.messages)
      invariant forall k :: 0 <= k < i ==> tables[k] == AfterTurns(old(store.messages), traces[..k])
      invariant forall k {:trigger tables[k]} :: 0 <= k < i ==>
                  RanTurn(old(store.conversations), tables[k], prompts[k], envs[k], traces[k])
      invariant forall k :: 0 <= k < i ==> traces[k].result.Ok?
    {
      PanicsIgnoresKnownHistory(store.conversations, store.messages, prompts[i], envs[i]);
      TurnKeepsRolesKnown(store.conversations, store.messages, prompts[i], envs[i]);
      ghost var table := store.messages;
      var result, effects := Inference(store, prompts[i], envs[i]);
      ServeStep(old(store.conversations), old(store.messages), prompts, envs, traces, tables, Trace(result, effects),
                traces + [Trace(result, effects)], tables + [table]);
      AfterTurnsSnoc(old(store.messages), traces, Trace(result, effects));
      traces := traces + [Trace(result, effects)];
      tables := tables + [table];
      if result.Err? {
        return;
      }
      i := i + 1;
    }
  }

  // ---------------------------------------------------------------------------
  // The receiver loop of `handle_socket` (ws.rs:70-95)

  /** A WebSocket frame from the browser: a text frame, whose JSON form
      decodes to a prompt or not, any other kind of frame, or a read error.
      The end of the sequence is the end of the socket's stream. */
  datatype Inbound = Text(prompt: Option<Message>) | NonText | ReadError

  /** Why the receiver stopped. */
  datatype ReceiverExit =
    | Disconnected      // the stream ended
    | UnexpectedFrame   // a frame other than text
    | ReceiveFailed     // the stream yielded an error
    | MalformedPrompt   // a text frame that is not a prompt
    | InferenceGone     // the inference worker no longer takes prompts

  predicate IsPrompt(item: Inbound)
  {
    item.Text? && item.prompt.Some?
  }

  /** The position of the first frame that is not a decodable prompt, or
      the length when there is none. */
  function FirstStop(inbound: seq<Inbound>): (n: nat)
    ensures n <= |inbound|
    ensures forall k :: 0 <= k < n ==> IsPrompt(inbound[k])
    ensures n < |inbound| ==> !IsPrompt(inbound[n])
    decreases |inbound|
  {
    if inbound == [] || !IsPrompt(inbound[0]) then 0 else 1 + FirstStop(inbound[1..])
  }

  /** How the receiver ends on the frame at `n`, the first that is not a
      prompt. */
  function StopReason(inbound: seq<Inbound>, n: nat): ReceiverExit
    requires n <= |inbound|
  {
    if n == |inbound| then Disconnected
    else match inbound[n]
      case NonText => UnexpectedFrame
      case ReadError => ReceiveFailed
      case Text(_) => MalformedPrompt
  }

  /** The receiver loop with `accepted` sends taken by the request channel:
      the prompts before the first frame that is not one are forwarded in
      order, as many as the channel takes. */
  method Receive(inbound: seq<Inbound>, accepted: nat) returns (forwarded: seq<Message>, exit: ReceiverExit)
    ensures |forwarded| == if accepted < FirstStop(inbound) then accepted else FirstStop(inbound)
    ensures forall k :: 0 <= k < |forwarded| ==> inbound[k] == Text(Some(forwarded[k]))
    ensures exit == if accepted < FirstStop(inbound) then InferenceGone else StopReason(inbound, FirstStop(inbound))
  {
    forwarded := [];
    var i := 0;
    while i < |inbound|
      invariant i <= FirstStop(inbound) && i <= accepted
      invariant |forwarded| == i
      invariant forall k :: 0 <= k < i ==> inbound[k] == Text(Some(forwarded[k]))
    {
      match inbound[i]
      case NonText =>
        return forwarded, UnexpectedFrame;
      case ReadError =>
        return forwarded, ReceiveFailed;
      case Text(decoded) =>
        if decoded.None? {
          return forwarded, MalformedPrompt;
        }
        if i == accepted {
          return forwarded, InferenceGone;
        }
        forwarded := forwarded + [decoded.value];
        i := i + 1;
    }
    exit := Disconnected;
  }

  // ---------------------------------------------------------------------------
  // The sender loop of `handle_socket` (ws.rs:51-64)

  /** Why the sender stopped. */
  datatype SenderExit = Drained | ClientGone

  /** The sender loop over the frames queued for it, with the socket taking
      `writable` writes before the client is gone: the frames are written in
      the order they were queued, and the loop stops at the first failed
      write. */
  method SendAll(queued: seq<Frame>, writable: nat) returns (written: seq<Frame>, exit: SenderExit)
    ensures written == if writable < |queued| then queued[..writable] else queued
    ensures exit == ClientGone <==> writable < |queued|
  {
    written := [];
    var i := 0;
    while i < |queued|
      invariant i <= |queued| && i <= writable
      invariant written == queued[..i]
    {
      if i == writable {
        return written, ClientGone;
      }
      written := written + [queued[i]];
      i := i + 1;
    }
    assert queued[..i] == queued;
    exit := Drained;
  }
}
