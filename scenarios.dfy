/** The page and the backend together: what an editor page sends arrives at
    the gateway's handlers, and what the backend answers comes back to the
    page's handlers. */
module Scenarios {
  import opened JsValues
  import Base64
  import opened RoomStore
  import opened SocketGateway
  import opened HttpApi
  import opened StatusBadge
  import opened RunPoller
  import opened Languages
  import opened EditorSession

  /** The socket transport: a message the page emits reaches the handler of
      the same name on the backend, for the page's socket. */
  method Deliver(g: Gateway, s: SocketId, m: ClientMessage)
    requires s in g.members
    modifies g
    ensures m.JoinRoom? ==> && g.rooms == old(g.rooms)
                            && g.outbox == old(g.outbox) + JoinOutput(old(g.rooms), s, m.roomId, m.withAck)
    ensures m.Change? ==> && g.rooms == ApplyEdit(old(g.rooms), m.roomId, m.field, m.value)
                          && g.outbox == old(g.outbox)
                               + [Emit(Relay(old(g.members), m.roomId, s), EventName(m.field), Value(m.value))]
    ensures g.members.Keys == old(g.members.Keys)
  {
    match m {
      case JoinRoom(id, role, withAck) => g.JoinRoom(s, id, role, withAck);
      case Change(f, id, v) => g.Edit(s, id, f, v);
    }
  }

  /** A page opened with no room in its address writes to the backend room
      "default-room": a viewer socket that joined "default-room" is sent the
      page's code, and the room stores it. */
  method SoloEditsReachDefaultRoom(v: string) returns (g: Gateway, page: Session)
    ensures g.outbox == [Emit({"w"}, "code-change", Value(v))]
    ensures DefaultRoom in g.rooms && g.rooms[DefaultRoom].code == Some(v)
    ensures page.roomId == None && page.code == v
  {
    g := new Gateway();
    g.Connect("a");
    g.Connect("w");
    g.JoinRoom("w", DefaultRoom, "viewer", false);
    page := new Session(None, None);
    page.OnConnect();
    page.EmitCodeChange(v);
    var m := page.sent[|page.sent| - 1];
    assert m == Change(Code, DefaultRoom, v);
    var members := g.members;
    assert members.Keys == {"a", "w"} && DefaultRoom in members["w"];
    assert Relay(members, DefaultRoom, "a") == {"w"} by {
      assert "w" in Relay(members, DefaultRoom, "a");
      forall x | x in Relay(members, DefaultRoom, "a") ensures x == "w" {
      }
    }
    Deliver(g, "a", m);
  }

  /** A connected page in no room whose editor holds `code`, `lang` and
      `input`, reached by editing. */
  method EditAlone(code: string, input: string, lang: LanguageOption) returns (page: Session)
    requires lang in Options
    ensures fresh(page) && page.Valid()
    ensures page.connected && page.roomId == None && page.role == "editor"
    ensures page.Document() == Doc(code, Some(lang), input)
  {
    page := new Session(None, None);
    page.OnConnect();
    page.EmitLanguageChange(lang);
    page.EmitCodeChange(code);
    page.EmitInputChange(input);
  }

  /** A page shares its work: it joins the new room with an acknowledgment
      and sends its three fields; a viewer joining afterwards is sent the
      whole record and ends up with the sharer's code, language and input. */
  method ShareThenView(code: string, input: string, lang: LanguageOption) returns (g: Gateway, viewer: Doc)
    requires lang in Options && code != ""
    ensures "r1" in g.rooms && g.rooms["r1"] == Room(Some(code), Some(lang.value), Some(input))
    ensures viewer == Doc(code, Some(lang), input)
  {
    var sharer := EditAlone(code, input, lang);
    var before := sharer.sent;
    var links := sharer.ShareRoom("https://host/editor", "r1");
    var ms := sharer.sent[|before|..];
    assert ms == ShareMessages("r1", Doc(code, Some(lang), input));
    g := new Gateway();
    g.Connect("s");
    g.Connect("v");
    Deliver(g, "s", ms[0]);
    Deliver(g, "s", ms[1]);
    Deliver(g, "s", ms[2]);
    Deliver(g, "s", ms[3]);
    assert g.rooms == ApplyEdit(ApplyEdit(ApplyEdit(map[], "r1", Code, code), "r1", Language, lang.value), "r1", Input, input);
    g.JoinRoom("v", "r1", "viewer", false);
    var d := Doc(StarterCode(DefaultLanguage.value), Some(DefaultLanguage), "");
    LateJoinerConverges(d, map[], "r1", code, lang, input);
    viewer := ApplySnapshot(d, g.rooms["r1"]);
  }

  /** A viewer link made by a sharer, opened in another page: once connected
      that page has joined the sharer's room as a viewer and listens to it. */
  method OpenViewerLink(base: string, id: RoomId) returns (page: Session)
    requires '?' !in base && '#' !in base && PlainParamValue(id) && id != ""
    ensures page.Valid() && page.connected && page.listening
    ensures page.roomId == Some(id) && page.role == "viewer"
    ensures page.sent == [JoinRoom(id, "viewer", false)]
  {
    var links := ShareLinks(base, id);
    ShareLinksReadBack(base, id);
    page := new Session(SearchParam(links.1, "room"), SearchParam(links.1, "role"));
    page.OnConnect();
  }

  /** As written, the viewer link of room "a#b" opens room "a" in the
      editor role: that page may edit a room it was never given. */
  method HashIdViewerLinkOpensAsEditor(base: string) returns (page: Session)
    requires '?' !in base && '#' !in base
    ensures page.Valid() && page.connected && page.listening
    ensures page.roomId == Some("a") && page.role == "editor"
  {
    var link := ShareLinks(base, "a#b").1;
    HashIdViewerLink(base);
    page := new Session(SearchParam(link, "room"), SearchParam(link, "role"));
    page.OnConnect();
  }

  /** With the id encoded, a viewer link opens the sharer's room as a
      viewer whatever the id. */
  method OpenEncodedViewerLink(base: string, id: RoomId) returns (page: Session)
    requires '?' !in base && '#' !in base && id != ""
    ensures page.Valid() && page.connected && page.listening
    ensures page.roomId == Some(id) && page.role == "viewer"
    ensures page.sent == [JoinRoom(id, "viewer", false)]
  {
    var links := EncodedShareLinks(base, id);
    EncodedShareLinksReadBack(base, id);
    page := new Session(SearchParam(links.1, "room"), SearchParam(links.1, "role"));
    page.OnConnect();
  }

  /** An empty editor encodes to "", which `/api/execute` refuses; the page
      shows the server's message with status 8 and fetches nothing. */
  lemma EmptyCodeIsRefused(input: string, languageId: int, outcomes: seq<FetchOutcome>, message: string)
    requires Base64.IsLatin1(input) && languageId != 0
    ensures var request := SubmitRequestFor("", input, languageId);
            && request.Some?
            && var checked := CheckExecute(ExecuteBody(Some(request.value.sourceCode), Some(languageId), Some(request.value.stdin)));
            && checked == BadRequest("Source code and language ID are required")
            && RunOutcome("", input, languageId, SubmitFailed(Some(checked.error), message), outcomes)
               == (RunView("Error: " + checked.error, Some(InternalError), None, None, false), 0)
  {
    assert Base64.IsLatin1("");
    assert Base64.EncodeUnpadded("") == "";
    var request := SubmitRequestFor("", input, languageId);
    assert request.value.sourceCode == "";
    var checked := CheckExecute(ExecuteBody(Some(request.value.sourceCode), Some(languageId), Some(request.value.stdin)));
    assert checked == BadRequest("Source code and language ID are required");
    assert Truthy(Some(checked.error));
  }

  /** `print(1)` run once: one fetch still processing, then accepted with
      stdout "MQo=" (Base64 for "1\n"). Two fetches; the page shows "1\n". */
  lemma PrintOneRun()
    ensures var pending := Fetched(Submission(None, None, None, Status(2, "Processing"), None, None));
            var accepted := Fetched(Submission(Some("MQo="), None, None, Status(3, "Accepted"), Some("0.01"), Some(3200)));
            RunOutcome("print(1)", "", 71, Submitted("t"), [pending, accepted])
              == (RunView("1\n", Some(Status(3, "Accepted")), Some("0.01"), Some(3200), false), 2)
  {
    var pending := Fetched(Submission(None, None, None, Status(2, "Processing"), None, None));
    var accepted := Fetched(Submission(Some("MQo="), None, None, Status(3, "Accepted"), Some("0.01"), Some(3200)));
    var outcomes := [pending, accepted];
    assert Base64.IsLatin1("print(1)") && Base64.IsLatin1("");
    assert RunOutcome("print(1)", "", 71, Submitted("t"), outcomes) == Poll(Started, outcomes);
    PollStopsAtFirstFinal(Started, outcomes, 1);
    DecodeNewlineOne();
    assert RawOutput(accepted.result) == "MQo=";
  }

  lemma DecodeNewlineOne()
    ensures Base64.Decode("MQo=") == Some("1\n")
  {
    assert Base64.RemoveAsciiWhitespace("MQo=") == "MQo=";
    assert Base64.StripPadding("MQo=") == "MQo";
  }

  /** The page's view of a completion reply: the JSON body's `error` and
      `suggestion` fields. */
  function ReplyOf(body: ReplyBody): AiReply {
    match body
    case ErrorBody(e) => AiReply(Some(e), None)
    case SuggestionBody(s) => AiReply(None, Some(s))
  }

  /** A completion request the page lets through is never refused for
      missing code, and the page inserts the provider's trimmed text when
      there is any. A provider answer without text, and a provider failure
      without a message, both end as "No suggestion received from AI". */
  lemma CompletionRoundTrip(code: string, provider: Generation)
    requires MayRequestCompletion(true, code)
    ensures var reaction := ReactToAi(ReplyOf(Body(Autocomplete(Some(code), provider))));
            && (provider.GenerationFailed? && provider.message != "" ==>
                  reaction == Notify("AI completion error: " + provider.message))
            && (provider.GenerationFailed? && provider.message == "" ==>
                  reaction == Notify("No suggestion received from AI"))
            && (provider.Generated? ==>
                  var text := FirstCandidateText(provider.candidates);
                  if text.None? || AllWhitespace(text.value) then reaction == Notify("No suggestion received from AI")
                  else reaction == Insert(Trim(text.value)))
  {
  }

  /** The badge shown after a run: pending while the last fetch is queued or
      processing, red for status 8 after any failure. */
  lemma FailedRunBadge(code: string, input: string, languageId: int, serverError: Option<string>, message: string)
    requires Base64.IsLatin1(code) && Base64.IsLatin1(input)
    ensures var view := RunOutcome(code, input, languageId, SubmitFailed(serverError, message), []).0;
            BadgeFor(view.status) == Some(Badge(Failure, "Internal Error"))
  {
  }
}
