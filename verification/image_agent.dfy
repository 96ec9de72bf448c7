/**
 * agents/image_agent.py: flattening a multimodal user message into plain
 * text in place, and the history handling of the image responder, which
 * appends the multimodal message, streams the answer, then replaces the
 * message by its flattened form.
 */
module ImageAgent {
  import opened Wrappers
  import opened PyStrings
  import opened PyValues
  import opened Chat
  import opened Streaming

  // ---------------------------------------------------------------------------
  // `flatten_user_message`

  /** What one item of a content list adds to the combined text; `None`
      when the item makes the loop raise: a `text` that is not a string,
      or an `image_url` that is not a dictionary. */
  function PartText(item: Value): Option<string> {
    match item
    case Dict(entries) =>
      if Get(entries, Str("type")) == Some(Str("text")) then
        var text := GetOr(entries, "text", Str(""));
        if text.Str? then Some(text.s + " ") else None
      else if Get(entries, Str("type")) == Some(Str("image_url")) then
        var image := GetOr(entries, "image_url", Dict([]));
        if image.Dict? then Some("[image: " + ToStr(GetOr(image.entries, "url", Str(""))) + "] ") else None
      else Some("")
    case _ => Some(ToStr(item) + " ")
  }

  /** The text the loop combines from the items, or `None` if it raises. */
  function Combined(items: seq<Value>): Option<string> {
    if |items| == 0 then Some("")
    else match Combined(items[..|items| - 1])
      case None => None
      case Some(prefix) =>
        match PartText(items[|items| - 1])
        case None => None
        case Some(part) => Some(prefix + part)
  }

  /** The content after flattening, or `None` if flattening raises. */
  function FlattenContent(content: Value): (r: Option<Value>)
    ensures content.Str? ==> r == Some(content)
    ensures r.Some? ==> r.value.Str?
    ensures !content.Str? && !content.List? ==> r == Some(Str(ToStr(content)))
  {
    match content
    case Str(_) => Some(content)
    case List(items) =>
      (match Combined(items)
       case None => None
       case Some(text) => Some(Str(Strip(text))))
    case _ => Some(Str(ToStr(content)))
  }

  /** `flatten_user_message(msg)`: the same message object comes back, its
      content replaced by the flattened text; if the loop raises, the
      message is left as it was. */
  method FlattenUserMessage(msg: Message) returns (r: Option<Message>)
    modifies msg
    ensures msg.role == old(msg.role)
    ensures r.None? <==> FlattenContent(old(msg.content)).None?
    ensures r.None? ==> msg.content == old(msg.content)
    ensures r.Some? ==> r.value == msg && msg.content == FlattenContent(old(msg.content)).value
  {
    var content := msg.content;
    if content.Str? {
      return Some(msg);
    } else if content.List? {
      var items := content.items;
      var combined := "";
      var i := 0;
      while i < |items|
        invariant 0 <= i <= |items|
        invariant Combined(items[..i]) == Some(combined)
      {
        assert items[..i + 1][..i] == items[..i];
        var part := PartText(items[i]);
        if part.None? {
          CombinedAbort(items, i + 1);
          return None;
        }
        combined := combined + part.value;
        i := i + 1;
      }
      assert items[..i] == items;
      msg.content := Str(Strip(combined));
    } else {
      msg.content := Str(ToStr(content));
    }
    return Some(msg);
  }

  /** Once an item raises, the loop raises. */
  lemma {:induction false} CombinedAbort(items: seq<Value>, i: nat)
    requires 0 < i <= |items| && Combined(items[..i]) == None
    ensures Combined(items) == None
    decreases |items|
  {
    if i < |items| {
      assert items[..|items| - 1][..i] == items[..i];
      CombinedAbort(items[..|items| - 1], i);
    } else {
      assert items[..i] == items;
    }
  }

  /** Flattening is idempotent: flattened content is a string, which
      flattens to itself. */
  lemma FlattenIdempotent(content: Value)
    requires FlattenContent(content).Some?
    ensures FlattenContent(FlattenContent(content).value) == FlattenContent(content)
  {
  }

  function TextPart(text: string): Value {
    Dict([(Str("type"), Str("text")), (Str("text"), Str(text))])
  }

  function ImagePart(url: string): Value {
    Dict([(Str("type"), Str("image_url")), (Str("image_url"), Dict([(Str("url"), Str(url))]))])
  }

  /** A text part adds its text and a blank. */
  lemma TextPartFlat(text: string)
    ensures PartText(TextPart(text)) == Some(text + " ")
  {
    assert "type" != "text";
    var t := [(Str("type"), Str("text")), (Str("text"), Str(text))];
    assert Get(t, Str("type")) == Some(Str("text"));
    assert Get(t[1..], Str("text")) == Some(Str(text));
  }

  /** An image part adds a bracketed reference to its URL and a blank. */
  lemma ImagePartFlat(url: string)
    ensures PartText(ImagePart(url)) == Some("[image: " + url + "] ")
  {
    assert "text" != "image_url" && "type" != "image_url";
    var inner := [(Str("url"), Str(url))];
    var m := [(Str("type"), Str("image_url")), (Str("image_url"), Dict(inner))];
    assert Get(m, Str("type")) == Some(Str("image_url"));
    assert Get(m[1..], Str("image_url")) == Some(Dict(inner));
    assert Get(inner, Str("url")) == Some(Str(url));
  }

  /** Anything that is not a dictionary adds its `str()` and a blank, and
      a dictionary of another type nothing. */
  lemma OtherPartsFlat()
    ensures PartText(Int(7)) == Some("7 ")
    ensures PartText(Dict([(Str("type"), Str("audio"))])) == Some("")
  {
    assert "audio" != "text" && "audio" != "image_url";
    assert IntToDecimal(7) == "7" by {
      assert NatToDecimal(7) == [DigitChar(7)];
      assert DigitChar(7) == '7';
    }
    assert ToStr(Int(7)) == "7";
    assert "7" + " " == "7 ";
  }

  // ---------------------------------------------------------------------------
  // `stream_image_responder`

  /** The user message content: the query's text part, then an image part
      only when `imageUrl` is truthy. */
  function UserContent(query: string, imageUrl: Option<string>): (c: Value)
    ensures c.List? && |c.items| >= 1 && c.items[0] == TextPart(query)
    ensures |c.items| == 2 <==> imageUrl.Some? && imageUrl.value != ""
    ensures |c.items| == 2 ==> c.items[1] == ImagePart(imageUrl.value)
  {
    if imageUrl.Some? && imageUrl.value != "" then List([TextPart(query), ImagePart(imageUrl.value)])
    else List([TextPart(query)])
  }

  /** What the flattened user message says. */
  function FlatQuery(query: string, imageUrl: Option<string>): string {
    if imageUrl.Some? && imageUrl.value != "" then Strip(query + " [image: " + imageUrl.value + "]")
    else Strip(query)
  }

  /** The user message flattens to the query, followed by the image
      reference when there is an image. */
  lemma FlattenUserContent(query: string, imageUrl: Option<string>)
    ensures FlattenContent(UserContent(query, imageUrl)) == Some(Str(FlatQuery(query, imageUrl)))
  {
    if imageUrl.Some? && imageUrl.value != "" {
      FlattenWithImage(query, imageUrl.value);
    } else {
      FlattenTextOnly(query);
    }
  }

  lemma FlattenWithImage(query: string, url: string)
    ensures FlattenContent(List([TextPart(query), ImagePart(url)])) == Some(Str(Strip(query + " [image: " + url + "]")))
  {
    TextPartFlat(query);
    ImagePartFlat(url);
    CombinedTwo(TextPart(query), ImagePart(url));
    var text := query + " " + ("[image: " + url + "] ");
    assert Combined([TextPart(query), ImagePart(url)]) == Some(text);
    assert text == (query + " [image: " + url + "]") + " ";
    StripTrailingBlank(query + " [image: " + url + "]");
  }

  lemma FlattenTextOnly(query: string)
    ensures FlattenContent(List([TextPart(query)])) == Some(Str(Strip(query)))
  {
    TextPartFlat(query);
    CombinedOne(TextPart(query));
    assert Combined([TextPart(query)]) == Some(query + " ");
    StripTrailingBlank(query);
  }

  lemma CombinedOne(a: Value)
    ensures PartText(a).Some? ==> Combined([a]) == PartText(a)
  {
    assert [a][..0] == [];
    if PartText(a).Some? {
      assert "" + PartText(a).value == PartText(a).value;
    }
  }

  lemma CombinedTwo(a: Value, b: Value)
    ensures PartText(a).Some? && PartText(b).Some? ==>
              Combined([a, b]) == Some(PartText(a).value + PartText(b).value)
  {
    assert [a, b][..1] == [a];
    CombinedOne(a);
  }

  /** A chunk of this stream carries only a content delta. */
  function AsDeltas(contents: seq<Option<string>>): (ds: seq<Delta>)
    ensures |ds| == |contents|
    ensures forall i :: 0 <= i < |ds| ==> ds[i] == Delta(None, contents[i])
  {
    seq(|contents|, i requires 0 <= i < |contents| => Delta(None, contents[i]))
  }

  /** The answer loop: every truthy content delta is sent as an answer
      frame and added to the answer. */
  method StreamAnswer(contents: seq<Option<string>>) returns (answer: string, sent: seq<Frame>)
    ensures answer == Answer(AsDeltas(contents))
    ensures sent == Frames(AsDeltas(contents))
  {
    answer := "";
    sent := [];
    var i := 0;
    while i < |contents|
      invariant 0 <= i <= |contents|
      invariant answer == Answer(AsDeltas(contents[..i]))
      invariant sent == Frames(AsDeltas(contents[..i]))
    {
      var ds := AsDeltas(contents[..i + 1]);
      assert ds[..i] == AsDeltas(contents[..i]);
      if Present(contents[i]) {
        answer := answer + contents[i].value;
        sent := sent + [Frame("answer", contents[i].value)];
      }
      i := i + 1;
    }
    assert contents[..i] == contents;
  }

  /** `stream_image_responder(ws, imageUrl, query, message)`: `contents`
      stands for the content deltas of the streamed completion. The
      history grows by exactly one message, the flattened user message,
      and the reply carries no reasoning. */
  method StreamImageResponder(imageUrl: Option<string>, query: string, contents: seq<Option<string>>, history: History)
    returns (reply: Reply, sent: seq<Frame>)
    modifies history
    ensures |history.msgs| == |old(history.msgs)| + 1
    ensures history.msgs[..|old(history.msgs)|] == old(history.msgs)
    ensures fresh(history.msgs[|old(history.msgs)|])
    ensures history.msgs[|old(history.msgs)|].role == "user"
    ensures history.msgs[|old(history.msgs)|].content == Str(FlatQuery(query, imageUrl))
    ensures reply == Reply("", Answer(AsDeltas(contents)))
    ensures sent == Frames(AsDeltas(contents))
  {
    var userMessage := new Message("user", UserContent(query, imageUrl));
    history.Append(userMessage);
    var answer;
    answer, sent := StreamAnswer(contents);
    var last := history.Pop();
    FlattenUserContent(query, imageUrl);
    var flat := FlattenUserMessage(last);
    history.Append(flat.value);
    return Reply("", answer), sent;
  }

  /** The socket receives the answer exactly, one frame per truthy
      delta. */
  lemma StreamedAnswer(contents: seq<Option<string>>)
    ensures DataOf(Frames(AsDeltas(contents)), "answer") == Answer(AsDeltas(contents))
    ensures DataOf(Frames(AsDeltas(contents)), "reasoning") == ""
  {
    FramesMatchReply(AsDeltas(contents));
    NoReasoning(AsDeltas(contents));
  }

  lemma {:induction false} NoReasoning(ds: seq<Delta>)
    requires forall i :: 0 <= i < |ds| ==> ds[i].reasoning.None?
    ensures Reasoning(ds) == ""
    decreases |ds|
  {
    if |ds| > 0 {
      NoReasoning(ds[..|ds| - 1]);
    }
  }
}
