/**
  The chat front end (frontend/src/App.jsx): a list of messages, the text being typed and a
  loading flag. Sending appends the user's message and an assistant placeholder, posts the
  prompt to the relay, and then overwrites the placeholder with the image URL or an error text.
  A message is shown as an image when it is the assistant's and its content starts with "http".
*/
module ChatApp {
  import opened Optional

  datatype Message = Message(role: string, content: string)

  /** What the POST to the relay yields: the payload's `image_url`, or the thrown error's message. */
  datatype ApiResult = ApiOk(imageUrl: string) | ApiError(message: string)

  const Placeholder := "Generating Image, please wait..."
  const ErrorPrefix := "An error occurred: "
  const UnknownError := "Unknown error"

  function StartsWith(s: string, prefix: string): bool {
    |prefix| <= |s| && s[..|prefix|] == prefix
  }

  /** The text shown for a failed request; an empty message counts as none. */
  function ErrorContent(message: string): (c: string)
    ensures StartsWith(c, ErrorPrefix)
    ensures c[|ErrorPrefix|..] == if message == "" then UnknownError else message
  {
    ErrorPrefix + (if message == "" then UnknownError else message)
  }

  /** The content the placeholder ends up with. */
  function ResultContent(r: ApiResult): string {
    match r
    case ApiOk(url) => url
    case ApiError(m) => ErrorContent(m)
  }

  /** The render rule: an `<img>` for an assistant message whose content starts with "http". */
  predicate RendersAsImage(m: Message) {
    m.role == "assistant" && StartsWith(m.content, "http")
  }

  /** The characters JavaScript's `String.prototype.trim` removes: white space and line terminators. */
  predicate IsJsWhitespace(c: char) {
    c == '\t' || c == '\n' || c == '\U{000B}' || c == '\U{000C}' || c == '\r' || c == ' ' ||
    c == '\U{00A0}' || c == '\U{1680}' || ('\U{2000}' <= c <= '\U{200A}') ||
    c == '\U{2028}' || c == '\U{2029}' || c == '\U{202F}' || c == '\U{205F}' ||
    c == '\U{3000}' || c == '\U{FEFF}'
  }

  predicate AllWhitespace(s: string) {
    forall i :: 0 <= i < |s| ==> IsJsWhitespace(s[i])
  }

  /** `s` without its leading white space. */
  function TrimStart(s: string): (t: string)
    ensures |t| <= |s| && t == s[|s| - |t|..]
    ensures AllWhitespace(s[..|s| - |t|])
    ensures t != [] ==> !IsJsWhitespace(t[0])
  {
    if s != [] && IsJsWhitespace(s[0]) then TrimStart(s[1..]) else s
  }

  /** `s` without its trailing white space. */
  function TrimEnd(s: string): (t: string)
    ensures |t| <= |s| && t == s[..|t|]
    ensures AllWhitespace(s[|t|..])
    ensures t != [] ==> !IsJsWhitespace(t[|t| - 1])
  {
    if s != [] && IsJsWhitespace(s[|s| - 1]) then TrimEnd(s[..|s| - 1]) else s
  }

  function Trim(s: string): string {
    TrimEnd(TrimStart(s))
  }

  /** A string trims to "" exactly when every character of it is white space. */
  lemma {:induction false} TrimEmptyIff(s: string)
    ensures Trim(s) == "" <==> AllWhitespace(s)
  {
    var t := TrimStart(s);
    var n := |s| - |t|;
    assert t != [] ==> t[0] == s[n];
    assert TrimEnd(t) == "" ==> AllWhitespace(t[0..]);
    assert s[..|s|] == s;
  }

  /** The button's `disabled` rule. */
  predicate SendDisabled(isLoading: bool, inputQuery: string) {
    isLoading || Trim(inputQuery) == ""
  }

  /** The handler's own early return: the query is empty or a request is in flight. */
  predicate GuardBlocks(isLoading: bool, inputQuery: string) {
    inputQuery == "" || isLoading
  }

  /** Whenever the handler would refuse, the button is disabled too. */
  lemma {:induction false} GuardImpliesDisabled(isLoading: bool, inputQuery: string)
    requires GuardBlocks(isLoading, inputQuery)
    ensures SendDisabled(isLoading, inputQuery)
  {
    if !isLoading {
      TrimEmptyIff(inputQuery);
    }
  }

  /**
    The two rules differ on white space: a non-empty, all-white-space query disables the
    button, yet passes the handler's guard, so pressing Enter sends it.
  */
  lemma {:induction false} WhitespaceQueryPassesGuard(inputQuery: string)
    requires inputQuery != "" && AllWhitespace(inputQuery)
    ensures SendDisabled(false, inputQuery) && !GuardBlocks(false, inputQuery)
  {
    TrimEmptyIff(inputQuery);
  }

  /** The copy-and-overwrite of the updaters: the last message gets new content, nothing else changes. */
  function WithLastContent(ms: seq<Message>, content: string): (r: seq<Message>)
    requires |ms| > 0
    ensures |r| == |ms| && r[..|ms| - 1] == ms[..|ms| - 1]
    ensures r[|ms| - 1] == Message(ms[|ms| - 1].role, content)
  {
    ms[|ms| - 1 := Message(ms[|ms| - 1].role, content)]
  }

  /** The list alternates user message, assistant message: one pair per send. */
  ghost predicate Paired(ms: seq<Message>) {
    |ms| % 2 == 0 &&
    forall i :: 0 <= i < |ms| ==> ms[i].role == (if i % 2 == 0 then "user" else "assistant")
  }

  /** The filled-in answer is shown as an image exactly when the request succeeded with an "http" URL. */
  lemma ResultRendering(r: ApiResult)
    ensures RendersAsImage(Message("assistant", ResultContent(r))) <==>
      r.ApiOk? && StartsWith(r.imageUrl, "http")
  {
    if r.ApiError? {
      var c := ErrorContent(r.message);
      assert c[0] == ErrorPrefix[0];
    }
  }

  /** Neither the user's own messages nor the placeholder are ever shown as an image. */
  lemma ImagesOnlyFromAnswers(m: Message)
    requires m.role == "user" || m == Message("assistant", Placeholder)
    ensures !RendersAsImage(m)
  {
    if m.role == "assistant" {
      assert m.content[0] == 'G';
    }
  }

  class Chat {
    var messages: seq<Message>
    var inputQuery: string
    var isLoading: bool

    /** Messages come in pairs; while a request is in flight the box is empty and the placeholder is last. */
    ghost predicate Valid()
      reads this
    {
      Paired(messages) &&
      (isLoading ==>
        inputQuery == "" && |messages| >= 2 &&
        messages[|messages| - 1] == Message("assistant", Placeholder))
    }

    /** The initial state of the three `useState` hooks. */
    constructor ()
      ensures Valid()
      ensures messages == [] && inputQuery == "" && !isLoading
    {
      messages, inputQuery, isLoading := [], "", false;
    }

    /** Typing into the box (`onChange`); the box is disabled while loading. */
    method ChangeInput(text: string)
      requires Valid()
      modifies this
      ensures Valid()
      ensures messages == old(messages) && isLoading == old(isLoading)
      ensures inputQuery == if old(isLoading) then old(inputQuery) else text
    {
      if !isLoading {
        inputQuery := text;
      }
    }

    /**
      The synchronous part of `handleSendQuery`: the guard, then the user message, the cleared
      box, the loading flag and the placeholder. Returns the prompt to post, if any.
    */
    method BeginSend() returns (request: Option<string>)
      requires Valid()
      modifies this
      ensures Valid()
      ensures GuardBlocks(old(isLoading), old(inputQuery)) ==>
        request.None? && messages == old(messages) && inputQuery == old(inputQuery) &&
        isLoading == old(isLoading)
      ensures !GuardBlocks(old(isLoading), old(inputQuery)) ==>
        request == Some(old(inputQuery)) &&
        messages == old(messages) + [Message("user", old(inputQuery)), Message("assistant", Placeholder)] &&
        inputQuery == "" && isLoading
    {
      if inputQuery == "" || isLoading {
        return None;
      }
      var query := inputQuery;
      messages := messages + [Message("user", query)];
      inputQuery := "";
      isLoading := true;
      messages := messages + [Message("assistant", Placeholder)];
      request := Some(query);
    }

    /**
      The rest of `handleSendQuery`, which runs only while its request is in flight: overwrite
      the placeholder's content, then clear the loading flag.
    */
    method FinishSend(result: ApiResult)
      requires Valid() && isLoading
      modifies this
      ensures Valid()
      ensures old(messages)[|old(messages)| - 1] == Message("assistant", Placeholder)
      ensures messages == WithLastContent(old(messages), ResultContent(result))
      ensures inputQuery == old(inputQuery) && !isLoading
    {
      var last := |messages| - 1;
      messages := messages[last := Message(messages[last].role, ResultContent(result))];
      isLoading := false;
    }

    /**
      `handleSendQuery` run to completion, with `post` answering the POST of the captured
      prompt: either nothing changes, or one user message and its filled-in answer are appended.
    */
    method HandleSendQuery(post: string -> ApiResult)
      requires Valid()
      modifies this
      ensures Valid()
      ensures GuardBlocks(old(isLoading), old(inputQuery)) ==>
        messages == old(messages) && inputQuery == old(inputQuery) && isLoading == old(isLoading)
      ensures !GuardBlocks(old(isLoading), old(inputQuery)) ==>
        messages == old(messages) +
          [Message("user", old(inputQuery)), Message("assistant", ResultContent(post(old(inputQuery))))] &&
        inputQuery == "" && !isLoading
    {
      var request := BeginSend();
      if request.Some? {
        FinishSend(post(request.value));
      }
    }

    /** The box's key handler: Enter sends, whatever the button's state. */
    method HandleInputKeyPress(key: string, post: string -> ApiResult)
      requires Valid()
      modifies this
      ensures Valid()
      ensures key != "Enter" || GuardBlocks(old(isLoading), old(inputQuery)) ==>
        messages == old(messages) && inputQuery == old(inputQuery) && isLoading == old(isLoading)
      ensures key == "Enter" && !GuardBlocks(old(isLoading), old(inputQuery)) ==>
        messages == old(messages) +
          [Message("user", old(inputQuery)), Message("assistant", ResultContent(post(old(inputQuery))))] &&
        inputQuery == "" && !isLoading
    {
      if key == "Enter" {
        HandleSendQuery(post);
      }
    }
  }

}
