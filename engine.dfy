/** The engine's state and its three state-changing steps: the rotator
    `getRotatedResponse`, the dispatcher `generateResponse` and the host turn
    of `handleUserInput`. The two globals `currentContext` and
    `responseHistory` are the fields of class Chatbot. */
module Engine {
  import opened Strings
  import opened Dialogue
  import opened Rotation

  /** One reply of the dispatcher together with the history it leaves: the
      pure form of `generateResponse` (the global it writes is the reply's
      context, see GenerateResponse). Only a sub-topic reply uses the
      rotator, with that sub-topic's three variants. */
  function Respond(ctx: Context, h: History, message: string): (res: (Reply, History))
    ensures var route := RouteOf(ctx, message);
            route.SubTopic? ==>
              var (i, h') := Rotate(h, ctx, route.sub, VariantCount);
              res == (Reply(Variant(ctx, route.sub, i), ctx, Some(route.sub)), h')
    ensures !RouteOf(ctx, message).SubTopic? ==>
              res.1 == h && res.0.subContext.None? && !res.0.text.Variant?
  {
    var route := RouteOf(ctx, message);
    if route.SubTopic? then
      var (i, h') := Rotate(h, ctx, route.sub, VariantCount);
      (ReplyFor(ctx, route, i), h')
    else
      (ReplyFor(ctx, route, 0), h)
  }

  /** A fresh or all-zero history keeps every index at 0 through one reply. */
  lemma RespondKeepsAllZero(ctx: Context, h: History, message: string)
    requires AllZero(h)
    ensures AllZero(Respond(ctx, h, message).1)
  {
    var route := RouteOf(ctx, message);
    if route.SubTopic? {
      RotateStaysAtFirst(h, ctx, route.sub, VariantCount);
    }
  }

  /** From a fresh or all-zero history, a sub-topic reply is the first of
      its variants. */
  lemma RespondVariantIsFirst(ctx: Context, h: History, message: string)
    requires AllZero(h)
    ensures var text := Respond(ctx, h, message).0.text;
            text.Variant? ==> text.index == 0
  {
    var route := RouteOf(ctx, message);
    if route.SubTopic? {
      RotateStaysAtFirst(h, ctx, route.sub, VariantCount);
    }
  }

  /** A conversation of several messages: each reply's context is the
      context of the next message (`handleUserInput` stores it in
      `currentContext`), and the history is threaded through. The result is
      the replies, the final context and the final history. */
  function Converse(ctx: Context, h: History, messages: seq<string>): (res: (seq<Reply>, Context, History))
    ensures |res.0| == |messages|
    decreases |messages|
  {
    if messages == [] then ([], ctx, h)
    else
      var (reply, h1) := Respond(ctx, h, messages[0]);
      var (rest, ctx', h2) := Converse(reply.context, h1, messages[1..]);
      ([reply] + rest, ctx', h2)
  }

  /** Every sub-topic text among the replies is the first of its variants. */
  predicate FirstVariants(replies: seq<Reply>)
  {
    forall k :: 0 <= k < |replies| ==> replies[k].text.Variant? ==> replies[k].text.index == 0
  }

  /** In a conversation of any length that starts from a fresh session (or
      any all-zero history), every sub-topic reply is the first of its
      variants. */
  lemma {:induction false} ConverseServesFirstVariant(ctx: Context, h: History, messages: seq<string>)
    requires AllZero(h)
    ensures AllZero(Converse(ctx, h, messages).2)
    ensures FirstVariants(Converse(ctx, h, messages).0)
    decreases |messages|
  {
    if messages != [] {
      var (reply, h1) := Respond(ctx, h, messages[0]);
      RespondKeepsAllZero(ctx, h, messages[0]);
      RespondVariantIsFirst(ctx, h, messages[0]);
      ConverseServesFirstVariant(reply.context, h1, messages[1..]);
      var rest := Converse(reply.context, h1, messages[1..]).0;
      assert FirstVariants([reply] + rest) by {
        assert forall k :: 1 <= k < |rest| + 1 ==> ([reply] + rest)[k] == rest[k - 1];
      }
    }
  }

  /** What `handleUserInput` did with a message. */
  datatype Turn =
    | Ignored                                         // empty after trimming
    | Resumed(options: seq<string>)                   // "Continue previous conversation"
    | Restarted(options: seq<string>)                 // "Start new conversation"
    | Answered(reply: Reply, options: seq<string>)    // an engine reply and its quick replies

  /** The two globals of the engine. */
  class Chatbot {
    var currentContext: Context
    var responseHistory: History

    /** A page load: no context and no rotation history. */
    constructor ()
      ensures currentContext == Null && responseHistory == map[]
    {
      currentContext := Null;
      responseHistory := map[];
    }

    /** `getRotatedResponse(context, subContext, responses)`: updates the
        entry for (context, subContext) as Rotate does and returns the text
        at the index stored there. */
    method GetRotatedResponse(context: Context, subContext: SubContext, responses: seq<Text>)
      returns (text: Text)
      requires |responses| > 0
      modifies this
      ensures var res := Rotate(old(responseHistory), context, subContext, |responses|);
              responseHistory == res.1 && text == responses[res.0]
      ensures AllZero(old(responseHistory)) ==> text == responses[0] && AllZero(responseHistory)
      ensures currentContext == old(currentContext)
    {
      if context !in responseHistory {
        responseHistory := responseHistory[context := map[]];
      }
      var inner: map<SubContext, nat> := responseHistory[context];
      var index: nat;
      if subContext !in inner || inner[subContext] == 0 {
        index := 0;
      } else {
        index := (inner[subContext] + 1) % |responses|;
      }
      ghost var expected := Rotate(old(responseHistory), context, subContext, |responses|);
      assert expected.0 == index;
      responseHistory := responseHistory[context := inner[subContext := index]];
      text := responses[index];
      assert expected.1 == responseHistory;
      if AllZero(old(responseHistory)) {
        RotateStaysAtFirst(old(responseHistory), context, subContext, |responses|);
      }
    }

    /** `generateResponse(message)`: the reply of the first tier that
        matches. It writes the global context itself only when returning to
        the menu (null) and when detecting a topic; the rotation history
        changes only for a sub-topic reply. */
    method GenerateResponse(message: string) returns (reply: Reply)
      modifies this
      ensures (reply, responseHistory) == Respond(old(currentContext), old(responseHistory), message)
      ensures var route := RouteOf(old(currentContext), message);
              currentContext == (if route.ToMainMenu? then Null
                                 else if route.Detected? then route.topic
                                 else old(currentContext))
      ensures AllZero(old(responseHistory)) ==> AllZero(responseHistory)
    {
      var ctx := currentContext;
      var route := RouteOf(ctx, message);
      match route
      case ToMainMenu =>
        currentContext := Null;
        reply := Reply(MenuReturn, Null, None);
      case Thanks =>
        reply := Reply(YoureWelcome, ctx, None);
      case SubTopic(s) =>
        var text := GetRotatedResponse(ctx, s, Variants(ctx, s));
        reply := Reply(text, ctx, Some(s));
      case StayDefault =>
        reply := Reply(TopicDefault(ctx), ctx, None);
      case Detected(c) =>
        currentContext := c;
        reply := Reply(Overview(c), c, None);
      case Unmatched =>
        reply := Reply(Prompt, Null, None);
    }

    /** One turn of `handleUserInput` without its timer and rendering. The
        message is trimmed; an empty one is ignored. The two session strings
        are handled before the engine: continuing restores the context read
        back from storage (`restored`), starting anew clears it; neither
        touches the rotation history. Otherwise the reply's context becomes
        the current context and the quick replies follow from it and the
        reply's sub-context. */
    method HandleUserInput(raw: string, restored: Context) returns (turn: Turn)
      modifies this
      ensures var message := Trim(raw);
              message == [] ==> turn == Ignored && currentContext == old(currentContext) &&
                                responseHistory == old(responseHistory)
      ensures Trim(raw) == "Continue previous conversation" ==>
                turn == Resumed(ContextOptions(restored, None)) && currentContext == restored &&
                responseHistory == old(responseHistory)
      ensures Trim(raw) == "Start new conversation" ==>
                turn == Restarted(TopicNames) && currentContext == Null &&
                responseHistory == old(responseHistory)
      ensures var message := Trim(raw);
              message != [] && message != "Continue previous conversation" && message != "Start new conversation" ==>
                var (reply, h) := Respond(old(currentContext), old(responseHistory), message);
                turn == Answered(reply, ContextOptions(reply.context, reply.subContext)) &&
                currentContext == reply.context && responseHistory == h
      ensures AllZero(old(responseHistory)) ==> AllZero(responseHistory)
    {
      var message := Trim(raw);
      if message == [] {
        return Ignored;
      }
      if message == "Continue previous conversation" {
        currentContext := restored;
        return Resumed(ContextOptions(currentContext, None));
      }
      if message == "Start new conversation" {
        currentContext := Null;
        return Restarted(ContextOptions(Null, None));
      }
      var reply := GenerateResponse(message);
      if reply.context != currentContext {
        currentContext := reply.context;
      }
      var options := ContextOptions(currentContext, reply.subContext);
      turn := Answered(reply, options);
    }
  }
}
