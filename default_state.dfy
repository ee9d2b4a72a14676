/** `defaultState`: the fallback for a state no handler claims. */
module DefaultStateHandler {
  import opened Messages
  import opened Session

  const NotUnderstoodText := "我們看不懂 QQ\n大俠請重新來過。"

  /** Back to the start with one text reply; everything else passes through.
      It has no precondition and calls no backend. */
  function Handle(data: Data, p: Params): (r: Turn)
    ensures r.data == data && r.calls == []
    ensures r.params.state == Init && r.params.replies == [Text(NotUnderstoodText)]
    ensures r.params.event == p.event && r.params.issuedAt == p.issuedAt
    ensures r.params.userId == p.userId && r.params.isSkipUser == p.isSkipUser
  {
    Turn(data, p.(state := Init, replies := [Text(NotUnderstoodText)]), [])
  }
}
