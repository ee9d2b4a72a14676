/** The two loops of the Messenger client: the dependent batch request that
    sends a turn's replies in order behind a typing indicator, and the text of
    a public page post assembled from its fields. */
module FbClient {
  import opened Js
  import opened Messages

  const MessagesPath := "v2.6/me/messages"

  /** One request of a Graph API batch. */
  datatype BatchEntry = BatchEntry(httpMethod: string, name: string, dependsOn: Option<string>,
                                   relativeUrl: string, body: string)

  /** The name of the n-th entry. */
  function EntryName(n: nat): string
  {
    "msg" + NatToString(n)
  }

  /** Entry 0: show the typing bubble. */
  function TypingEntry(recipient: string): BatchEntry
  {
    BatchEntry("POST", EntryName(0), None, MessagesPath, recipient + "&sender_action=typing_on")
  }

  /** The entry sending reply `idx`, run only after the one before it;
      `encode` stands for `encodeURIComponent(JSON.stringify(content))`. */
  function ReplyEntry(recipient: string, idx: nat, reply: Reply, encode: Reply -> string): BatchEntry
  {
    BatchEntry("POST", EntryName(idx + 1), Some(EntryName(idx)), MessagesPath,
               recipient + "&message=" + encode(reply))
  }

  /** Each entry after the first waits for the one just before it. */
  predicate Chained(batch: seq<BatchEntry>)
  {
    forall i :: 0 < i < |batch| ==> batch[i].dependsOn == Some(batch[i - 1].name)
  }

  lemma EntryNamesDistinct(m: nat, n: nat)
    ensures EntryName(m) == EntryName(n) ==> m == n
  {
    if EntryName(m) == EntryName(n) {
      assert NatToString(m) == EntryName(m)[3..];
      assert NatToString(n) == EntryName(n)[3..];
      NatToStringInjective(m, n);
    }
  }

  /** `wrapUpMessages`: the typing entry, then one entry per reply, in reply
      order, forming a single chain of distinct names. */
  method WrapUpMessages(recipient: string, replies: seq<Reply>, encode: Reply -> string)
    returns (batch: seq<BatchEntry>)
    ensures |batch| == |replies| + 1
    ensures batch[0] == TypingEntry(recipient) && batch[0].dependsOn.None?
    ensures forall i :: 0 <= i < |replies| ==> batch[i + 1] == ReplyEntry(recipient, i, replies[i], encode)
    ensures forall i :: 0 <= i < |batch| ==>
      batch[i].httpMethod == "POST" && batch[i].relativeUrl == MessagesPath && batch[i].name == EntryName(i)
    ensures Chained(batch)
    ensures forall i, j :: 0 <= i < j < |batch| ==> batch[i].name != batch[j].name
  {
    batch := [TypingEntry(recipient)];
    for idx := 0 to |replies|
      invariant |batch| == idx + 1 && batch[0] == TypingEntry(recipient)
      invariant forall i :: 0 <= i < idx ==> batch[i + 1] == ReplyEntry(recipient, i, replies[i], encode)
      invariant forall i :: 0 <= i < |batch| ==>
        batch[i].httpMethod == "POST" && batch[i].relativeUrl == MessagesPath && batch[i].name == EntryName(i)
      invariant Chained(batch)
    {
      batch := batch + [ReplyEntry(recipient, idx, replies[idx], encode)];
    }
    forall i, j | 0 <= i < j < |batch|
      ensures batch[i].name != batch[j].name
    {
      EntryNamesDistinct(i, j);
    }
  }

  /** A Graph API response: its HTTP status and the fields the post has. */
  datatype PageResponse = PageResponse(status: int, fields: map<string, string>)

  /** The fields asked for, in order. */
  const PageFields := ["message", "caption", "link"]

  /** Each present field of `names`, in order, followed by a newline. */
  function FieldsText(fields: map<string, string>, names: seq<string>): (r: string)
    ensures r == "" <==> forall i :: 0 <= i < |names| ==> names[i] !in fields
    decreases |names|
  {
    if names == [] then ""
    else
      var last := names[|names| - 1];
      FieldsText(fields, names[..|names| - 1]) + (if last in fields then fields[last] + "\n" else "")
  }

  /** What `pagePublicContentAccess` returns for a response. */
  function PageText(resp: PageResponse): string
  {
    if resp.status != 200 then "" else FieldsText(resp.fields, PageFields)
  }

  /** Spelled out: message, caption and link, each with its newline. */
  lemma PageTextFields(resp: PageResponse)
    ensures resp.status == 200 ==>
      PageText(resp) == (if "message" in resp.fields then resp.fields["message"] + "\n" else "")
                        + (if "caption" in resp.fields then resp.fields["caption"] + "\n" else "")
                        + (if "link" in resp.fields then resp.fields["link"] + "\n" else "")
  {
    var f := resp.fields;
    assert PageFields[..2] == ["message", "caption"];
    assert PageFields[..2][..1] == ["message"];
    assert ["message"][..0] == [];
    assert FieldsText(f, ["message"]) == (if "message" in f then f["message"] + "\n" else "");
    assert FieldsText(f, ["message", "caption"])
      == FieldsText(f, ["message"]) + (if "caption" in f then f["caption"] + "\n" else "");
  }

  /** The field loop of `pagePublicContentAccess` on the fetched response. The
      text is empty exactly when the fetch failed or the post has none of the
      fields. */
  method PagePublicContentAccess(resp: PageResponse) returns (msg: string)
    ensures msg == PageText(resp)
    ensures msg == "" <==> resp.status != 200 || forall f :: f in PageFields ==> f !in resp.fields
  {
    if resp.status != 200 {
      return "";
    }
    msg := "";
    for i := 0 to |PageFields|
      invariant msg == FieldsText(resp.fields, PageFields[..i])
    {
      var field := PageFields[i];
      assert PageFields[..i + 1][..i] == PageFields[..i];
      if field in resp.fields {
        msg := msg + resp.fields[field] + "\n";
      }
    }
    assert PageFields[..|PageFields|] == PageFields;
  }
}
