/** `askingArticleSubmission`: the user confirms filing the text as a new
    article. "y" creates it with the reason, "n" discards it, "r" asks for the
    reason again; anything else changes nothing. */
module AskingArticleSubmissionHandler {
  import opened Js
  import opened Messages
  import opened Session
  import opened Utils

  const MissingText := "searchText not set in data"

  /** The turn the handler takes, given the id the backend gives the new
      article. `data` is never written. */
  function Handle(data: Data, p: Params, newArticleId: string): (r: Result<Turn>)
    ensures r.Err? <==> !Truthy(data.searchedText)
    ensures r.Err? ==> r.message == MissingText
    ensures r.Ok? ==> r.value.data == data
    ensures r.Ok? && p.event.input == "y" ==>
      r.value.calls == [CreateArticle(data.searchedText.value, data.reasonText)]
      && r.value.params == p.(state := Init, replies := [Text("Your submission is now at " + GetArticleURL(newArticleId)),
                                                        Text("Thank you!")])
    ensures r.Ok? && p.event.input == "n" ==>
      r.value.calls == [] && r.value.params == p.(state := Init, replies := [Text("The message is discarded. Thank you.")])
    ensures r.Ok? && p.event.input == "r" ==>
      r.value.calls == []
      && r.value.params == p.(state := AskingArticleSubmissionReason, replies := [Text("Sure. Please revise your reason.")])
    ensures r.Ok? && p.event.input !in {"y", "n", "r"} ==> r.value == Turn(data, p, [])
  {
    if !Truthy(data.searchedText) then Err(MissingText)
    else if p.event.input == "y" then
      var replies := [Text("Your submission is now at " + GetArticleURL(newArticleId)), Text("Thank you!")];
      Ok(Turn(data, p.(state := Init, replies := replies), [CreateArticle(data.searchedText.value, data.reasonText)]))
    else if p.event.input == "n" then
      Ok(Turn(data, p.(state := Init, replies := [Text("The message is discarded. Thank you.")]), []))
    else if p.event.input == "r" then
      Ok(Turn(data, p.(state := AskingArticleSubmissionReason, replies := [Text("Sure. Please revise your reason.")]), []))
    else
      Ok(Turn(data, p, []))
  }
}
