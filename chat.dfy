/**
 * The chat panel: the conversation transcript, the upload controls, the
 * question input, the webhook display and the file-mutation counter that makes
 * the file list refresh.
 *
 * Each asynchronous handler is one atomic transition whose network outcome is
 * an input.
 */
module Chat {
  import opened Net

  datatype Sender = User | Bot

  datatype Message = Message(sender: Sender, text: string)

  /** One item of the `/chat/history` response. */
  datatype QaPair = QaPair(question: string, answer: string)

  /** The body of a `/chat` request. */
  datatype AskRequest = AskRequest(question: string, language: string)

  const NoFileStatus := "Please select a file first."
  const UploadingStatus := "Uploading and indexing..."
  const UploadNetworkStatus := "An error occurred during upload."
  const AskNetworkReply := "An error occurred while asking the question."
  const WebhookHttpText := "Could not fetch webhook URL."
  const WebhookNetworkText := "An error occurred."

  // ---------------------------------------------------------------------------
  // The transcript as pairs of turns

  /** The history response turned into the transcript: each pair becomes a
      user message followed by a bot message, in the server's order. */
  function Flatten(history: seq<QaPair>): (r: seq<Message>)
    ensures |r| == 2 * |history|
    ensures forall i :: 0 <= i < |history| ==>
      r[2 * i] == Message(User, history[i].question) &&
      r[2 * i + 1] == Message(Bot, history[i].answer)
  {
    if history == [] then []
    else [Message(User, history[0].question), Message(Bot, history[0].answer)] + Flatten(history[1..])
  }

  /** The question/answer pairs an even-length transcript is made of. */
  function Unflatten(m: seq<Message>): (h: seq<QaPair>)
    requires |m| % 2 == 0
    ensures |h| == |m| / 2
  {
    if m == [] then [] else [QaPair(m[0].text, m[1].text)] + Unflatten(m[2..])
  }

  /** A transcript made of whole turns: a user message, then a bot message, and so on. */
  ghost predicate PairedTurns(m: seq<Message>) {
    m == [] || (|m| >= 2 && m[0].sender == User && m[1].sender == Bot && PairedTurns(m[2..]))
  }

  lemma {:induction false} FlattenPaired(history: seq<QaPair>)
    ensures PairedTurns(Flatten(history))
  {
    if history != [] {
      FlattenPaired(history[1..]);
      assert Flatten(history)[2..] == Flatten(history[1..]);
    }
  }

  lemma {:induction false} UnflattenFlatten(history: seq<QaPair>)
    ensures Unflatten(Flatten(history)) == history
  {
    if history != [] {
      UnflattenFlatten(history[1..]);
      assert Flatten(history)[2..] == Flatten(history[1..]);
    }
  }

  lemma {:induction false} FlattenUnflatten(m: seq<Message>)
    requires PairedTurns(m)
    ensures |m| % 2 == 0 && Flatten(Unflatten(m)) == m
  {
    if m != [] {
      FlattenUnflatten(m[2..]);
      assert m == m[..2] + m[2..];
    }
  }

  lemma {:induction false} FlattenAppend(a: seq<QaPair>, b: seq<QaPair>)
    ensures Flatten(a + b) == Flatten(a) + Flatten(b)
  {
    if a != [] {
      FlattenAppend(a[1..], b);
      var turn := [Message(User, a[0].question), Message(Bot, a[0].answer)];
      assert (a + b)[0] == a[0] && (a + b)[1..] == a[1..] + b;
      assert Flatten(a + b) == turn + (Flatten(a[1..]) + Flatten(b));
      assert Flatten(a) == turn + Flatten(a[1..]);
    } else {
      assert a + b == b;
    }
  }

  /** Appending one question and its reply keeps the transcript made of whole turns. */
  lemma TurnAppend(m: seq<Message>, question: string, reply: string)
    requires PairedTurns(m)
    ensures PairedTurns(m + [Message(User, question), Message(Bot, reply)])
  {
    FlattenUnflatten(m);
    FlattenAppend(Unflatten(m), [QaPair(question, reply)]);
    FlattenPaired(Unflatten(m) + [QaPair(question, reply)]);
    assert Flatten([QaPair(question, reply)]) == [Message(User, question), Message(Bot, reply)];
  }

  // ---------------------------------------------------------------------------
  // String.prototype.trim

  /** The characters ECMAScript's `trim` removes: WhiteSpace and LineTerminator. */
  predicate IsJsWhitespace(c: char) {
    || c == '\t' || c == '\n' || c == '\U{000B}' || c == '\U{000C}' || c == '\r' || c == ' '
    || c == '\U{00A0}' || c == '\U{1680}' || ('\U{2000}' <= c <= '\U{200A}')
    || c == '\U{2028}' || c == '\U{2029}' || c == '\U{202F}' || c == '\U{205F}'
    || c == '\U{3000}' || c == '\U{FEFF}'
  }

  function TrimStart(s: string): (r: string)
    ensures |r| <= |s| && r == s[|s| - |r|..]
    ensures forall k :: 0 <= k < |s| - |r| ==> IsJsWhitespace(s[k])
    ensures r == [] || !IsJsWhitespace(r[0])
  {
    if s != [] && IsJsWhitespace(s[0]) then TrimStart(s[1..]) else s
  }

  function TrimEnd(s: string): (r: string)
    ensures |r| <= |s| && r == s[..|r|]
    ensures forall k :: |r| <= k < |s| ==> IsJsWhitespace(s[k])
    ensures r == [] || !IsJsWhitespace(r[|r| - 1])
  {
    if s != [] && IsJsWhitespace(s[|s| - 1]) then TrimEnd(s[..|s| - 1]) else s
  }

  function Trim(s: string): string {
    TrimEnd(TrimStart(s))
  }

  /** `!question.trim()`: the question is empty after trimming. */
  predicate IsBlank(question: string)
    ensures IsBlank(question) <==> TrimStart(question) == ""
  {
    Trim(question) == ""
  }

  lemma BlankIffAllWhitespace(s: string)
    ensures IsBlank(s) <==> forall k :: 0 <= k < |s| ==> IsJsWhitespace(s[k])
  {
  }

  // ---------------------------------------------------------------------------
  // The panel

  class ChatPanel {
    var selectedFile: Option<string>
    var question: string
    var isLoading: bool
    var uploadStatus: string
    var messages: seq<Message>
    var webhookUrl: string
    var webhookLoading: bool
    /** Bumped after each successful upload or delete; the file list refetches on a change. */
    var fileUploaded: nat

    ghost predicate Valid()
      reads this
    {
      PairedTurns(messages)
    }

    constructor ()
      ensures Valid()
      ensures selectedFile == None && question == "" && !isLoading && uploadStatus == ""
      ensures messages == [] && webhookUrl == "" && !webhookLoading && fileUploaded == 0
    {
      selectedFile, question, isLoading, uploadStatus := None, "", false, "";
      messages, webhookUrl, webhookLoading, fileUploaded := [], "", false, 0;
    }

    /** The history effect on mount: a successful response replaces the
        transcript by its flattening; a failed one leaves it as it was. */
    method LoadHistory(outcome: Response<seq<QaPair>>)
      requires Valid()
      modifies this`messages, this`isLoading
      ensures Valid() && !isLoading
      ensures outcome.Ok? ==> messages == Flatten(outcome.payload)
      ensures !outcome.Ok? ==> messages == old(messages)
    {
      isLoading := true;
      if outcome.Ok? {
        messages := Flatten(outcome.payload);
        FlattenPaired(outcome.payload);
      }
      isLoading := false;
    }

    /** Choosing a file (or none) in the file input clears the upload status. */
    method ChooseFile(file: Option<string>)
      modifies this`selectedFile, this`uploadStatus
      ensures selectedFile == file && uploadStatus == ""
    {
      selectedFile := file;
      uploadStatus := "";
    }

    method EditQuestion(text: string)
      modifies this`question
      ensures question == text
    {
      question := text;
    }

    /** Uploads the selected file, returning the name of the file sent, if any. */
    method Upload(outcome: Response<()>) returns (sent: Option<string>)
      modifies this`uploadStatus, this`isLoading, this`fileUploaded
      ensures selectedFile.None? ==>
        && sent == None && uploadStatus == NoFileStatus
        && fileUploaded == old(fileUploaded) && isLoading == old(isLoading)
      ensures selectedFile.Some? ==>
        && sent == selectedFile && !isLoading
        && fileUploaded == old(fileUploaded) + (if outcome.Ok? then 1 else 0)
        && (outcome.Ok? ==> uploadStatus == "File '" + selectedFile.value + "' uploaded successfully!")
        && (outcome.HttpError? ==> uploadStatus == "Upload failed: " + Interpolate(outcome.detail))
        && (outcome.NetworkError? ==> uploadStatus == UploadNetworkStatus)
    {
      if selectedFile.None? {
        uploadStatus := NoFileStatus;
        return None;
      }
      isLoading := true;
      uploadStatus := UploadingStatus;
      sent := selectedFile;
      match outcome {
        case Ok(_) =>
          uploadStatus := "File '" + selectedFile.value + "' uploaded successfully!";
          fileUploaded := fileUploaded + 1;
        case HttpError(detail) =>
          uploadStatus := "Upload failed: " + Interpolate(detail);
        case NetworkError =>
          uploadStatus := UploadNetworkStatus;
      }
      isLoading := false;
    }

    /** Asks the current question in the given language. A blank question
        changes nothing and sends nothing; otherwise the transcript gains the
        question and then exactly one bot reply, and the input is cleared. */
    method AskQuestion(language: string, outcome: Response<string>) returns (request: Option<AskRequest>)
      requires Valid()
      modifies this`messages, this`question, this`isLoading
      ensures Valid()
      ensures IsBlank(old(question)) ==>
        && request == None && messages == old(messages)
        && question == old(question) && isLoading == old(isLoading)
      ensures !IsBlank(old(question)) ==>
        && request == Some(AskRequest(old(question), language))
        && messages == old(messages) + [Message(User, old(question)), Message(Bot, BotReply(outcome))]
        && question == "" && !isLoading
    {
      if IsBlank(question) {
        return None;
      }
      var asked := question;
      ghost var turn := [Message(User, asked), Message(Bot, BotReply(outcome))];
      TurnAppend(messages, asked, BotReply(outcome));
      assert messages + [Message(User, asked)] + [Message(Bot, BotReply(outcome))] == messages + turn;
      messages := messages + [Message(User, asked)];
      question := "";
      isLoading := true;
      request := Some(AskRequest(asked, language));
      messages := messages + [Message(Bot, BotReply(outcome))];
      isLoading := false;
    }

    /** The Enter key in the question input asks, unless a request is in flight. */
    method AskOnKeyPress(key: string, language: string, outcome: Response<string>) returns (request: Option<AskRequest>)
      requires Valid()
      modifies this`messages, this`question, this`isLoading
      ensures Valid()
      ensures key != "Enter" || old(isLoading) ==>
        request == None && messages == old(messages) && question == old(question) && isLoading == old(isLoading)
      ensures key == "Enter" && !old(isLoading) && IsBlank(old(question)) ==>
        request == None && messages == old(messages) && question == old(question) && isLoading == old(isLoading)
      ensures key == "Enter" && !old(isLoading) && !IsBlank(old(question)) ==>
        && request == Some(AskRequest(old(question), language))
        && messages == old(messages) + [Message(User, old(question)), Message(Bot, BotReply(outcome))]
        && question == "" && !isLoading
    {
      request := None;
      if key == "Enter" && !isLoading {
        request := AskQuestion(language, outcome);
      }
    }

    /** Fetches the public webhook URL, or shows the failure placeholder. */
    method GetWebhook(outcome: Response<string>)
      modifies this`webhookUrl, this`webhookLoading
      ensures !webhookLoading
      ensures outcome.Ok? ==> webhookUrl == outcome.payload
      ensures outcome.HttpError? ==> webhookUrl == WebhookHttpText
      ensures outcome.NetworkError? ==> webhookUrl == WebhookNetworkText
    {
      webhookLoading := true;
      match outcome {
        case Ok(url) => webhookUrl := url;
        case HttpError(_) => webhookUrl := WebhookHttpText;
        case NetworkError => webhookUrl := WebhookNetworkText;
      }
      webhookLoading := false;
    }

    /** The file list's callback after a successful delete. */
    method FileDeleted()
      modifies this`fileUploaded, this`messages
      ensures Valid()
      ensures fileUploaded == old(fileUploaded) + 1 && messages == []
    {
      fileUploaded := fileUploaded + 1;
      messages := [];
    }
  }

  /** The bot message that answers a question, by outcome. */
  function BotReply(outcome: Response<string>): (r: string)
    ensures outcome.Ok? ==> r == outcome.payload
    ensures outcome.HttpError? ==> |r| >= 7 && r[..7] == "Error: " && r[7..] == Interpolate(outcome.detail)
    ensures outcome.NetworkError? ==> r == AskNetworkReply
  {
    match outcome
    case Ok(answer) => answer
    case HttpError(detail) => "Error: " + Interpolate(detail)
    case NetworkError => AskNetworkReply
  }
}
