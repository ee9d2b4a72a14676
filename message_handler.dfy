/** `messageHandler`: one webhook event for one user. It normalises the event
    into an input and its type, applies the shortcuts that bypass the state
    machine, runs one turn, falls back to the start on failure, and sends the
    replies and stores the new context. The store, the Messenger client, the
    turn dispatcher and URL parsing are parameters; what the handler does to
    them is returned as a list of effects in the order it issues them. */
module MessageHandler {
  import opened Js
  import opened Messages
  import opened Session
  import FbClient

  /** The stored name of the start state. */
  const InitName := Init.Name()
  const ResetInput := "RESET"
  const ContactInput := "我是要找 Cofacts 的人啦"
  const ContactText := "請寫信到\ncofacts@googlegroups.com\n" + "我們都會收信喔~"
  const TextOnlyText := "我們還不支援文字以外的訊息唷！"
  const FaultText := "糟糕，bot 故障了。可以再傳一次嗎？ QQ"

  /** The most attachments of one message that are looked at. */
  const MaxAttachments: nat := 10

  datatype Attachment = Attachment(kind: string, url: string, title: Option<string>, payloadUrl: string)
  datatype MessageEvent = MessageEvent(text: Option<string>, attachments: Option<seq<Attachment>>)
  datatype PostbackEvent = PostbackEvent(payload: Option<string>)

  /** One entry of a webhook's `messaging` list. */
  datatype Messaging = Messaging(postback: Option<PostbackEvent>, message: Option<MessageEvent>, mid: Option<string>)

  /** A stored context as the dispatcher sees and returns it. */
  datatype Context = Context(state: Option<string>, data: Data, issuedAt: Option<int>)

  /** What the store holds for a user: a context object, or the bare string
      written after an event with no usable input. */
  datatype Stored = Bare(name: string) | Object(context: Context)

  /** What the dispatcher returns: `replies` may be missing. */
  datatype Outcome = Outcome(context: Context, replies: Option<seq<Reply>>)

  /** The services the handler is given. `handleInput` is the state machine's
      dispatcher; `fetchPage` is the Graph API read behind
      `pagePublicContentAccess`; the other two are Node's URL helpers. */
  datatype Env = Env(
    parseQuery: string -> map<string, string>,
    decodeURIComponent: string -> string,
    fetchPage: string -> FbClient.PageResponse,
    handleInput: (Stored, Event, int, string) -> Result<Outcome>)

  datatype Effect =
    | Delete(userId: string)
    | Send(receiver: string, replies: seq<Reply>)
    | Put(userId: string, value: Stored)
    | Upload(mid: Option<string>, idx: nat, url: string)

  /** The normalised event, or none for webhook events that are not messages. */
  datatype Classified = Ignored | Normalized(input: Option<string>, kind: Option<string>)

  function Lookup(query: map<string, string>, key: string): Option<string>
  {
    if key in query then Some(query[key]) else None
  }

  predicate IsPostLink(url: string)
  {
    Contains(url, "https://www.facebook.com/") || Contains(url, "http://www.facebook.com/")
  }

  predicate IsRedirectLink(url: string)
  {
    Contains(url, "https://l.facebook.com/") || Contains(url, "http://l.facebook.com/")
  }

  /** The input a shared link gives: a post's own text, or the title and the
      target of an outbound link; nothing for any other URL. */
  function LinkInput(a: Attachment, env: Env): (r: Option<string>)
    ensures IsPostLink(a.url) ==>
      var q := env.parseQuery(a.url);
      r == Some(FbClient.PageText(env.fetchPage(Interpolate(Lookup(q, "id")) + "_" + Interpolate(Lookup(q, "story_fbid")))))
    ensures !IsPostLink(a.url) && IsRedirectLink(a.url) ==>
      r == Some(Interpolate(a.title) + "\t" + env.decodeURIComponent(Interpolate(Lookup(env.parseQuery(a.url), "u"))))
    ensures r.None? <==> !IsPostLink(a.url) && !IsRedirectLink(a.url)
  {
    var q := env.parseQuery(a.url);
    if IsPostLink(a.url) then
      Some(FbClient.PageText(env.fetchPage(Interpolate(Lookup(q, "id")) + "_" + Interpolate(Lookup(q, "story_fbid")))))
    else if IsRedirectLink(a.url) then
      Some(Interpolate(a.title) + "\t" + env.decodeURIComponent(Interpolate(Lookup(q, "u"))))
    else None
  }

  predicate HasPayload(m: Messaging)
  {
    m.postback.Some? && Truthy(m.postback.value.payload)
  }

  /** The first attachment when the message has a non-empty list of them. */
  predicate HasAttachments(msg: MessageEvent)
  {
    msg.attachments.Some? && |msg.attachments.value| > 0
  }

  /** Event classification: a postback payload wins over everything, then the
      message's text, then a shared link, then other attachments. */
  function Classify(m: Messaging, env: Env): (c: Classified)
    ensures c.Ignored? <==> !HasPayload(m) && m.message.None?
    ensures HasPayload(m) ==> c == Normalized(m.postback.value.payload, Some("postback"))
    ensures !HasPayload(m) && m.message.Some? && Truthy(m.message.value.text) ==>
      c == Normalized(m.message.value.text, Some("text"))
    ensures c.Normalized? && c.input.Some? ==> c.kind.Some?
    ensures c.Normalized? && c.kind == Some("attachment") <==>
      !HasPayload(m) && m.message.Some? && !Truthy(m.message.value.text)
      && HasAttachments(m.message.value) && m.message.value.attachments.value[0].kind != "fallback"
    ensures c.Normalized? && c.kind == Some("attachment") ==> c.input.None?
  {
    if HasPayload(m) then Normalized(m.postback.value.payload, Some("postback"))
    else if m.message.None? then Ignored
    else
      var msg := m.message.value;
      if Truthy(msg.text) then Normalized(msg.text, Some("text"))
      else if HasAttachments(msg) then
        var first := msg.attachments.value[0];
        if first.kind == "fallback" then Normalized(LinkInput(first, env), Some("text"))
        else Normalized(None, Some("attachment"))
      else Normalized(None, None)
  }

  /** `(await redis.get(userId)) || {}`. */
  function LoadContext(stored: Option<Stored>): Stored
  {
    if stored.None? || stored.value == Bare("") then Object(Context(None, EmptyData, None))
    else stored.value
  }

  /** `context.state`: a bare string has none. */
  function StateOf(s: Stored): Option<string>
  {
    if s.Object? then s.context.state else None
  }

  function IssuedAtOf(s: Stored): Option<int>
  {
    if s.Object? then s.context.issuedAt else None
  }

  /** The context and replies a turn ends with. */
  datatype Settled = Settled(context: Context, replies: seq<Reply>)

  /** The context after a fault: the start state with empty data. */
  const FaultContext := Context(Some(InitName), EmptyData, None)

  /** The outcome of a turn made safe: a throw or missing replies restart the
      conversation with one apology; otherwise the dispatcher's context is
      kept, with `issuedAt` the turn's time exactly when the state changed and
      the previous `issuedAt` otherwise. */
  function Settle(prior: Stored, handled: Result<Outcome>, now: int): (r: Settled)
    ensures handled.Err? || handled.value.replies.None? ==> r == Settled(FaultContext, [Text(FaultText)])
    ensures handled.Ok? && handled.value.replies.Some? ==>
      var o := handled.value;
      && r.replies == o.replies.value
      && r.context.state == o.context.state && r.context.data == o.context.data
      && (StateOf(prior) != o.context.state ==> r.context.issuedAt == Some(now))
      && (StateOf(prior) == o.context.state ==> r.context.issuedAt == IssuedAtOf(prior))
  {
    if handled.Err? || handled.value.replies.None? then Settled(FaultContext, [Text(FaultText)])
    else
      var o := handled.value;
      var issuedAt := if StateOf(prior) != o.context.state then Some(now) else IssuedAtOf(prior);
      Settled(o.context.(issuedAt := issuedAt), o.replies.value)
  }

  /** The uploads of the image attachments among the first ten, in order. */
  function ImageUploads(mid: Option<string>, atts: seq<Attachment>): (r: seq<Effect>)
    ensures |r| <= |atts| && |r| <= MaxAttachments
    ensures forall k :: 0 <= k < |r| ==>
      r[k].Upload? && r[k].mid == mid && r[k].idx < |atts| && r[k].idx < MaxAttachments
      && atts[r[k].idx].kind == "image" && r[k].url == atts[r[k].idx].payloadUrl
    ensures forall k, l :: 0 <= k < l < |r| ==> r[k].idx < r[l].idx
    decreases |atts|
  {
    if atts == [] then []
    else
      var init, last := atts[..|atts| - 1], atts[|atts| - 1];
      ImageUploads(mid, init)
      + (if |init| < MaxAttachments && last.kind == "image" then [Upload(mid, |init|, last.payloadUrl)] else [])
  }

  /** Every image among the first ten attachments is uploaded. */
  lemma {:induction false} EveryImageUploaded(mid: Option<string>, atts: seq<Attachment>, i: nat)
    requires i < |atts| && i < MaxAttachments && atts[i].kind == "image"
    ensures exists k :: 0 <= k < |ImageUploads(mid, atts)| && ImageUploads(mid, atts)[k] == Upload(mid, i, atts[i].payloadUrl)
    decreases |atts|
  {
    var init := atts[..|atts| - 1];
    var r := ImageUploads(mid, atts);
    if i == |init| {
      assert r[|r| - 1] == Upload(mid, i, atts[i].payloadUrl);
    } else {
      EveryImageUploaded(mid, init, i);
      var k :| 0 <= k < |ImageUploads(mid, init)| && ImageUploads(mid, init)[k] == Upload(mid, i, init[i].payloadUrl);
      assert r[k] == ImageUploads(mid, init)[k];
    }
  }

  /** The replies and stored value when no usable input came. */
  function Unsupported(userId: string): seq<Effect>
  {
    [Send(userId, [Text(TextOnlyText)]), Put(userId, Bare(InitName))]
  }

  /** `messageHandler` for one event. */
  method HandleMessage(userId: string, blacklist: seq<string>, m: Messaging, stored: Option<Stored>,
                       now: int, env: Env) returns (effects: seq<Effect>)
    // A blacklisted user, or an event that is not a message: nothing at all.
    ensures userId in blacklist || Classify(m, env).Ignored? ==> effects == []
    ensures userId !in blacklist && Classify(m, env).Normalized? ==>
      var c := Classify(m, env);
      var context := LoadContext(stored);
      && (Truthy(c.input) ==>
            var input := c.input.value;
            // The shortcuts ahead of the state machine.
            && (input == ResetInput ==> effects == [Delete(userId)])
            && (input == ContactInput ==> effects == [Send(userId, [Text(ContactText)])])
            && (input != ResetInput && input != ContactInput && |input| == 1 && StateOf(context) == Some(InitName)
                ==> effects == [])
            // Otherwise one turn: its replies are sent, then its context stored.
            && (input != ResetInput && input != ContactInput && !(|input| == 1 && StateOf(context) == Some(InitName))
                ==> var s := Settle(context, env.handleInput(context, Event(input, c.kind.value), now, userId), now);
                    effects == [Send(userId, s.replies), Put(userId, Object(s.context))]))
      // No usable input: image uploads for attachments, then the text-only reply
      // and the bare start state.
      && (!Truthy(c.input) && c.kind == Some("attachment") ==>
            effects == ImageUploads(m.mid, m.message.value.attachments.value) + Unsupported(userId))
      && (!Truthy(c.input) && c.kind != Some("attachment") ==> effects == Unsupported(userId))
  {
    effects := [];
    if userId in blacklist {
      return;
    }
    var resultContext: Stored := Bare(InitName);
    var resultReplies := [Text(TextOnlyText)];

    var input: Option<string> := None;
    var kind: Option<string> := None;
    if HasPayload(m) {
      input := m.postback.value.payload;
      kind := Some("postback");
    } else if m.message.Some? {
      var msg := m.message.value;
      if Truthy(msg.text) {
        input := msg.text;
        kind := Some("text");
      } else if HasAttachments(msg) {
        var first := msg.attachments.value[0];
        if first.kind == "fallback" {
          kind := Some("text");
          var q := env.parseQuery(first.url);
          if IsPostLink(first.url) {
            var text := FbClient.PagePublicContentAccess(
              env.fetchPage(Interpolate(Lookup(q, "id")) + "_" + Interpolate(Lookup(q, "story_fbid"))));
            input := Some(text);
          } else if IsRedirectLink(first.url) {
            input := Some(Interpolate(first.title) + "\t" + env.decodeURIComponent(Interpolate(Lookup(q, "u"))));
          }
        } else {
          kind := Some("attachment");
        }
      }
    } else {
      return;
    }
    assert Classify(m, env) == Normalized(input, kind);

    if Truthy(input) {
      var context := LoadContext(stored);
      if input.value == ResetInput {
        effects := [Delete(userId)];
        return;
      } else if input.value == ContactInput {
        effects := [Send(userId, [Text(ContactText)])];
        return;
      } else if |input.value| == 1 && StateOf(context) == Some(InitName) {
        return;
      }
      var issuedAt := now;
      var handled := env.handleInput(context, Event(input.value, kind.value), issuedAt, userId);
      if handled.Err? || handled.value.replies.None? {
        resultContext := Object(FaultContext);
        resultReplies := [Text(FaultText)];
      } else {
        var ctx := handled.value.context;
        if StateOf(context) != ctx.state {
          ctx := ctx.(issuedAt := Some(issuedAt));
        } else {
          ctx := ctx.(issuedAt := IssuedAtOf(context));
        }
        resultContext := Object(ctx);
        resultReplies := handled.value.replies.value;
      }
    } else if kind == Some("attachment") {
      var atts := m.message.value.attachments.value;
      for idx := 0 to |atts|
        invariant effects == ImageUploads(m.mid, atts[..idx])
      {
        assert atts[..idx + 1][..idx] == atts[..idx];
        if idx >= MaxAttachments {
          continue;
        }
        if atts[idx].kind == "image" {
          effects := effects + [Upload(m.mid, idx, atts[idx].payloadUrl)];
        }
      }
      assert atts[..|atts|] == atts;
    }

    effects := effects + [Send(userId, resultReplies), Put(userId, resultContext)];
  }
}
