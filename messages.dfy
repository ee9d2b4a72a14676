/** The reply messages a turn produces, `{ type, content }` in the source: plain
    text, a button template, a carousel of generic-template cards, and the
    `generic` share message. Only what the next turn or the user depends on is
    kept: texts, button titles, URLs and postback payloads. */
module Messages {
  import opened Js

  datatype Button =
    | Postback(title: string, payload: string)
    | WebUrl(title: string, url: string)
    | ElementShare(elements: seq<Card>)

  /** One element of a generic template; the "none of these" card has no subtitle. */
  datatype Card = Card(title: string, subtitle: Option<string>, buttons: seq<Button>)

  datatype QuickReply = QuickReply(title: string, payload: string)

  datatype Reply =
    | Text(text: string)
    | Buttons(text: string, buttons: seq<Button>)
    | Carousel(cards: seq<Card>, quickReplies: seq<QuickReply>)
    | Generic(text: string, buttons: seq<Button>)

  /** The payloads of the postback buttons, in order. */
  function Payloads(buttons: seq<Button>): seq<string>
    decreases |buttons|
  {
    if buttons == [] then []
    else (if buttons[0].Postback? then [buttons[0].payload] else []) + Payloads(buttons[1..])
  }
}
