/** The collaboration side of the editor page (frontend/src/pages/EditorPage.jsx):
    the socket's `connect` handler, the edit handlers that update the page and
    tell the room, the `sync-code` and relay handlers, share-link creation,
    and the reaction to an AI completion reply.

    Everything the page sends over its socket is recorded, in order, in
    `sent`. */
module EditorSession {
  import opened JsValues
  import opened Languages
  import opened RoomStore

  /** `ROOM_ID`: where edits go when the page is in no room. */
  const DefaultRoom := "default-room"

  /** `roomId || ROOM_ID`: never empty. */
  function EffectiveRoom(roomId: Option<RoomId>): (id: RoomId)
    ensures id != ""
    ensures Truthy(roomId) ==> id == roomId.value
    ensures !Truthy(roomId) ==> id == DefaultRoom
  {
    Or(roomId, Some(DefaultRoom)).value
  }

  /** What the page sends: a join (with or without an acknowledgment
      callback) or an edit of one field. */
  datatype ClientMessage =
    | JoinRoom(roomId: RoomId, role: string, withAck: bool)
    | Change(field: Field, roomId: RoomId, value: string)

  /** The emission of `emitCodeChange`, `emitLanguageChange` and
      `emitInputChange`: sent only when a socket is connected and the page is
      in the editor role, always to `roomId || "default-room"`. */
  function EditMessage(connected: bool, roomId: Option<RoomId>, role: string, f: Field, v: string)
    : (m: Option<ClientMessage>)
    ensures m.Some? <==> connected && role == "editor"
    ensures m.Some? ==> && m.value.Change? && m.value.field == f && m.value.value == v
                        && m.value.roomId != ""
                        && (Truthy(roomId) ==> m.value.roomId == roomId.value)
                        && (!Truthy(roomId) ==> m.value.roomId == DefaultRoom)
  {
    if connected && role == "editor" then Some(Change(f, EffectiveRoom(roomId), v)) else None
  }

  function AsSeq(m: Option<ClientMessage>): seq<ClientMessage> {
    if m.Some? then [m.value] else []
  }

  /** The three synchronised fields of the page; the language is `None` once
      a lookup by editor mode has found nothing. */
  datatype Doc = Doc(code: string, language: Option<LanguageOption>, input: string)

  /** The `sync-code` handler: each field of the snapshot that is present and
      not empty replaces the page's; the language is looked up by its mode. */
  function ApplySnapshot(d: Doc, snap: Room): (e: Doc)
    ensures Truthy(snap.code) ==> e.code == snap.code.value
    ensures !Truthy(snap.code) ==> e.code == d.code
    ensures Truthy(snap.language) ==> e.language == FindByValue(snap.language.value)
    ensures !Truthy(snap.language) ==> e.language == d.language
    ensures Truthy(snap.input) ==> e.input == snap.input.value
    ensures !Truthy(snap.input) ==> e.input == d.input
  {
    Doc(if Truthy(snap.code) then snap.code.value else d.code,
        if Truthy(snap.language) then FindByValue(snap.language.value) else d.language,
        if Truthy(snap.input) then snap.input.value else d.input)
  }

  /** The `code-change`, `language-change` and `input-change` handlers: the
      field takes the relayed value, empty or not. */
  function ApplyRemote(d: Doc, f: Field, v: string): (e: Doc)
    ensures f == Code ==> e == d.(code := v)
    ensures f == Language ==> e == d.(language := FindByValue(v))
    ensures f == Input ==> e == d.(input := v)
  {
    match f
    case Code => d.(code := v)
    case Language => d.(language := FindByValue(v))
    case Input => d.(input := v)
  }

  /** A page that joins a room after its code, language and input were set
      (the code non-empty, the language one of the four) ends with exactly
      those, whatever it showed before; an empty input converges only to a
      page whose input was empty too. */
  lemma LateJoinerConverges(d: Doc, rooms: Store, id: RoomId, c: string, lang: LanguageOption, i: string)
    requires c != "" && (i != "" || d.input == "") && lang in Options
    ensures var after := ApplyEdit(ApplyEdit(ApplyEdit(rooms, id, Code, c), id, Language, lang.value), id, Input, i);
            ApplySnapshot(d, after[id]) == Doc(c, Some(lang), i)
  {
    FindOwnValue(lang);
  }

  /** A room whose code was last set to "" does not pass that on: the
      joining page keeps the code it had, and a snapshot never empties a
      field. */
  lemma SnapshotNeverClears(d: Doc, rooms: Store, id: RoomId, f: Field)
    ensures var after := ApplyEdit(rooms, id, f, "");
            && (f == Code ==> ApplySnapshot(d, after[id]).code == d.code)
            && (f == Input ==> ApplySnapshot(d, after[id]).input == d.input)
            && (f == Language ==> ApplySnapshot(d, after[id]).language == d.language)
  {
  }

  /** A relayed edit of a field leaves the receiving page's field equal to
      the stored one (for the language: the option it names). */
  lemma RemoteEditMatchesStore(d: Doc, rooms: Store, id: RoomId, f: Field, v: string)
    ensures var stored := Get(ApplyEdit(rooms, id, f, v)[id], f);
            && stored == Some(v)
            && (f == Code ==> ApplyRemote(d, f, v).code == stored.value)
            && (f == Input ==> ApplyRemote(d, f, v).input == stored.value)
            && (f == Language ==> ApplyRemote(d, f, v).language == FindByValue(stored.value))
  {
  }

  /** The editor and viewer links `generateShareLinks` builds for a room,
      with the room id written into the address as it is. */
  function ShareLinks(base: string, id: RoomId): (string, string) {
    (base + "?room=" + id + "&role=editor", base + "?room=" + id + "&role=viewer")
  }

  // ---------------------------------------------------------------------------
  // Reading a link back: `new URLSearchParams(window.location.search).get(name)`

  /** `s` cut at the first `c`: what comes before it and, when there is one,
      what comes after it. */
  function SplitAt(s: string, c: char): (r: (string, Option<string>))
    ensures r.1.None? ==> r.0 == s && c !in s
    ensures r.1.Some? ==> s == r.0 + [c] + r.1.value && c !in r.0
    decreases |s|
  {
    if s == [] then ([], None)
    else if s[0] == c then ([], Some(s[1..]))
    else
      var (before, after) := SplitAt(s[1..], c);
      assert s == [s[0]] + s[1..];
      ([s[0]] + before, after)
  }

  predicate IsHexDigit(c: char) {
    ('0' <= c <= '9') || ('A' <= c <= 'F') || ('a' <= c <= 'f')
  }

  function HexValue(c: char): (v: int)
    requires IsHexDigit(c)
    ensures 0 <= v < 16
  {
    if '0' <= c <= '9' then c as int - '0' as int
    else if 'A' <= c <= 'F' then c as int - 'A' as int + 10
    else c as int - 'a' as int + 10
  }

  /** The upper-case digit for a value below 16. */
  function HexDigit(v: int): (c: char)
    requires 0 <= v < 16
    ensures IsHexDigit(c) && HexValue(c) == v
  {
    if v < 10 then (v + '0' as int) as char else (v - 10 + 'A' as int) as char
  }

  /** The decoding `URLSearchParams` applies to names and values: '+' is a
      space, '%' and two hex digits is the character of that byte, and any
      other '%' stays as it is. */
  function DecodeParam(s: string): (r: string)
    ensures |r| <= |s|
    decreases |s|
  {
    if s == [] then []
    else if s[0] == '+' then " " + DecodeParam(s[1..])
    else if s[0] == '%' && |s| >= 3 && IsHexDigit(s[1]) && IsHexDigit(s[2]) then
      [(HexValue(s[1]) * 16 + HexValue(s[2])) as char] + DecodeParam(s[3..])
    else [s[0]] + DecodeParam(s[1..])
  }

  /** Text without '%' and '+' decodes to itself. */
  lemma {:induction false} DecodePlain(s: string)
    requires '%' !in s && '+' !in s
    ensures DecodeParam(s) == s
    decreases |s|
  {
    if s != [] {
      assert s[0] != '%' && s[0] != '+';
      DecodePlain(s[1..]);
      assert s == [s[0]] + s[1..];
    }
  }

  /** The value of the first `name=value` pair of a query string whose
      decoded name is `name`, decoded (a pair without '=' has the value ""). */
  function LookupParam(query: string, name: string): Option<string>
    decreases |query|
  {
    var (pair, rest) := SplitAt(query, '&');
    var (key, value) := SplitAt(pair, '=');
    if pair != "" && DecodeParam(key) == name then Some(DecodeParam(value.GetOr("")))
    else if rest.None? then None
    else LookupParam(rest.value, name)
  }

  /** `url.searchParams.get(name)`: the query is what follows the first '?'
      up to the fragment; no '?' means no parameters. */
  function SearchParam(url: string, name: string): Option<string> {
    var (beforeFragment, _) := SplitAt(url, '#');
    var (_, query) := SplitAt(beforeFragment, '?');
    if query.None? then None else LookupParam(query.value, name)
  }

  /** The cut is at the first `c`, whatever follows it. */
  lemma {:induction false} SplitAtFirst(a: string, c: char, b: string)
    requires c !in a
    ensures SplitAt(a + [c] + b, c) == (a, Some(b))
  {
    var s := a + [c] + b;
    assert s[|a|] == c;
    var r := SplitAt(s, c);
    assert c in s;
    assert s[|r.0|] == (r.0 + [c] + r.1.value)[|r.0|] == c;
    assert forall k :: 0 <= k < |a| ==> s[k] == a[k] && s[k] != c;
    assert forall k :: 0 <= k < |r.0| ==> s[k] == r.0[k] && s[k] != c;
    assert |r.0| == |a|;
    assert r.0 == s[..|a|] == a;
    assert r.1.value == s[|a| + 1..] == b;
  }

  /** A room id as the page generates it (`Math.random().toString(36)`) has
      none of the characters that would end or re-encode a query value. */
  predicate PlainParamValue(v: string) {
    '&' !in v && '#' !in v && '%' !in v && '+' !in v
  }

  /** The parameters of a URL without a fragment are those of the text
      after its first '?'. */
  lemma {:induction false} SearchParamOf(base: string, query: string, name: string)
    requires '?' !in base && '#' !in base && '#' !in query
    ensures SearchParam(base + ['?'] + query, name) == LookupParam(query, name)
  {
    var url := base + ['?'] + query;
    assert '#' !in url;
    assert SplitAt(url, '#') == (url, None);
    SplitAtFirst(base, '?', query);
  }

  /** Looking a name up in `key=value&rest`: the decoded value when the
      decoded key is the name, otherwise the lookup in `rest`. */
  lemma {:induction false} LookupPairThen(key: string, value: string, rest: string, name: string)
    requires '=' !in key && '&' !in key && '&' !in value
    ensures LookupParam(key + ['='] + value + ['&'] + rest, name)
              == if DecodeParam(key) == name then Some(DecodeParam(value)) else LookupParam(rest, name)
  {
    var pair := key + ['='] + value;
    assert '&' !in pair;
    SplitAtFirst(pair, '&', rest);
    SplitAtFirst(key, '=', value);
  }

  /** Looking a name up in a last pair `key=value`. */
  lemma {:induction false} LookupLastPair(key: string, value: string, name: string)
    requires '=' !in key && '&' !in key && '&' !in value
    ensures LookupParam(key + ['='] + value, name)
              == if DecodeParam(key) == name then Some(DecodeParam(value)) else None
  {
    var pair := key + ['='] + value;
    assert '&' !in pair;
    assert SplitAt(pair, '&') == (pair, None);
    SplitAtFirst(key, '=', value);
  }

  /** A link of the form `base?room=<value>&role=<role>`, opened, yields the
      decoded value as the room and the role it was built with, as long as
      the value holds no '&' and no '#'. */
  lemma {:induction false} LinkReadBack(base: string, value: string, role: string)
    requires '?' !in base && '#' !in base && '&' !in value && '#' !in value
    requires role == "editor" || role == "viewer"
    ensures SearchParam(base + "?room=" + value + "&role=" + role, "room") == Some(DecodeParam(value))
    ensures SearchParam(base + "?room=" + value + "&role=" + role, "role") == Some(role)
  {
    var room, roleKey := "room", "role";
    var last := roleKey + ['='] + role;
    var query := room + ['='] + value + ['&'] + last;
    assert base + "?room=" + value + "&role=" + role == base + ['?'] + query;
    assert '#' !in query by {
      assert '#' !in room && '#' !in roleKey && '#' !in role;
    }
    assert '=' !in room && '&' !in room && '=' !in roleKey && '&' !in roleKey && '&' !in role;
    DecodePlain(room);
    DecodePlain(roleKey);
    DecodePlain(role);
    SearchParamOf(base, query, "room");
    SearchParamOf(base, query, "role");
    LookupPairThen(room, value, last, "room");
    LookupPairThen(room, value, last, "role");
    LookupLastPair(roleKey, role, "role");
  }

  /** Both share links name the room they were made for, one with the
      editor role and one with the viewer role, when the id is one the page
      generates. */
  lemma ShareLinksReadBack(base: string, id: RoomId)
    requires '?' !in base && '#' !in base && PlainParamValue(id)
    ensures var links := ShareLinks(base, id);
            && SearchParam(links.0, "room") == Some(id) && SearchParam(links.0, "role") == Some("editor")
            && SearchParam(links.1, "room") == Some(id) && SearchParam(links.1, "role") == Some("viewer")
  {
    DecodePlain(id);
    var links := ShareLinks(base, id);
    assert links.0 == base + "?room=" + id + "&role=" + "editor";
    assert links.1 == base + "?room=" + id + "&role=" + "viewer";
    LinkReadBack(base, id, "editor");
    LinkReadBack(base, id, "viewer");
  }

  /** A room id taken from the address can hold anything. Room "x&y" (the
      address `?room=x%26y`) shares links that open room "x". */
  lemma AmpersandIdLink(base: string)
    requires '?' !in base && '#' !in base
    ensures SearchParam(ShareLinks(base, "x&y").1, "room") == Some("x")
  {
    var room, x := "room", "x";
    var rest := "y&role=viewer";
    var query := room + ['='] + x + ['&'] + rest;
    assert ShareLinks(base, "x&y").1 == base + ['?'] + query;
    assert '#' !in query;
    assert '=' !in room && '&' !in room && '&' !in x;
    DecodePlain(room);
    DecodePlain(x);
    SearchParamOf(base, query, "room");
    LookupPairThen(room, x, rest, "room");
  }

  /** Room "a#b" (the address `?room=a%23b`) shares a viewer link that opens
      room "a" with no role at all, which the page takes as "editor". */
  lemma HashIdViewerLink(base: string)
    requires '?' !in base && '#' !in base
    ensures var link := ShareLinks(base, "a#b").1;
            SearchParam(link, "room") == Some("a") && SearchParam(link, "role") == None
  {
    var room, a := "room", "a";
    var query := room + ['='] + a;
    var link := ShareLinks(base, "a#b").1;
    assert link == (base + ['?'] + query) + ['#'] + "b&role=viewer";
    assert '#' !in base + ['?'] + query by {
      assert '#' !in query;
    }
    SplitAtFirst(base + ['?'] + query, '#', "b&role=viewer");
    SplitAtFirst(base, '?', query);
    assert '=' !in room && '&' !in room && '&' !in a;
    DecodePlain(room);
    DecodePlain(a);
    LookupLastPair(room, a, "room");
    LookupLastPair(room, a, "role");
  }

  /** The characters `encodeURIComponent` leaves as they are. */
  predicate IsUnreserved(c: char) {
    || ('A' <= c <= 'Z') || ('a' <= c <= 'z') || ('0' <= c <= '9')
    || c == '-' || c == '_' || c == '.' || c == '!' || c == '~' || c == '*'
    || c == '\'' || c == '(' || c == ')'
  }

  /** One character of `encodeURIComponent`: an unreserved character as it
      is, any other character up to U+00FF as '%' and two hex digits. */
  function EncodeChar(c: char): (r: string)
    ensures DecodeParam(r) == [c]
    ensures '&' !in r && '#' !in r && '+' !in r
  {
    if IsUnreserved(c) || c as int > 0xFF then
      assert DecodeParam([c]) == [c] + DecodeParam([]);
      [c]
    else
      var r := ['%', HexDigit(c as int / 16), HexDigit(c as int % 16)];
      assert DecodeParam(r) == [c] + DecodeParam(r[3..]);
      r
  }

  /** `encodeURIComponent`, character by character. */
  function EncodeComponent(s: string): (r: string)
    ensures '&' !in r && '#' !in r && '+' !in r
    decreases |s|
  {
    if s == [] then [] else EncodeChar(s[0]) + EncodeComponent(s[1..])
  }

  /** Decoding an escape, or an unreserved character, and then the rest. */
  lemma {:induction false} DecodeAfterChar(c: char, t: string)
    ensures DecodeParam(EncodeChar(c) + t) == [c] + DecodeParam(t)
  {
    var e := EncodeChar(c);
    if |e| == 1 {
      assert (e + t)[0] == c && (e + t)[1..] == t;
    } else {
      assert (e + t)[3..] == t;
    }
  }

  /** Decoding undoes `encodeURIComponent`, for every string. */
  lemma {:induction false} DecodeEncoded(s: string)
    ensures DecodeParam(EncodeComponent(s)) == s
    decreases |s|
  {
    if s != [] {
      DecodeAfterChar(s[0], EncodeComponent(s[1..]));
      DecodeEncoded(s[1..]);
      assert s == [s[0]] + s[1..];
    }
  }

  /** The links with the room id passed through `encodeURIComponent`. */
  function EncodedShareLinks(base: string, id: RoomId): (string, string) {
    ShareLinks(base, EncodeComponent(id))
  }

  /** Encoded links name exactly the room they were made for, whatever its
      id, one with the editor role and one with the viewer role. */
  lemma EncodedShareLinksReadBack(base: string, id: RoomId)
    requires '?' !in base && '#' !in base
    ensures var links := EncodedShareLinks(base, id);
            && SearchParam(links.0, "room") == Some(id) && SearchParam(links.0, "role") == Some("editor")
            && SearchParam(links.1, "room") == Some(id) && SearchParam(links.1, "role") == Some("viewer")
  {
    DecodeEncoded(id);
    var value := EncodeComponent(id);
    var links := ShareLinks(base, value);
    assert links.0 == base + "?room=" + value + "&role=" + "editor";
    assert links.1 == base + "?room=" + value + "&role=" + "viewer";
    LinkReadBack(base, value, "editor");
    LinkReadBack(base, value, "viewer");
  }

  /** What a page sends when it creates a room to share: the join with an
      acknowledgment, then (from the acknowledgment) its three fields. */
  function ShareMessages(id: RoomId, d: Doc): (ms: seq<ClientMessage>)
    requires d.language.Some?
    ensures |ms| == 4 && ms[0] == JoinRoom(id, "editor", true)
    ensures forall k :: 1 <= k < 4 ==> ms[k].Change? && ms[k].roomId == id
    ensures ms[1].field == Code && ms[2].field == Language && ms[3].field == Input
    ensures ms[1].value == d.code && ms[2].value == d.language.value.value && ms[3].value == d.input
  {
    [JoinRoom(id, "editor", true), Change(Code, id, d.code),
     Change(Language, id, d.language.value.value), Change(Input, id, d.input)]
  }

  /** The reply of the `ai-autocomplete` event as the page reads it. */
  datatype AiReply = AiReply(error: Option<string>, suggestion: Option<string>)

  /** What the page does with it: a notification or an insertion. */
  datatype AiReaction = Insert(text: string) | Notify(message: string)

  /** `requestAICompletion` asks only with a connected socket and code that
      is not all whitespace. */
  predicate MayRequestCompletion(connected: bool, code: string): (ok: bool)
    ensures ok <==> connected && !AllWhitespace(code)
  {
    TrimEmptyIff(code);
    connected && Trim(code) != ""
  }

  /** The reply callback: an error is reported, a non-empty suggestion is
      inserted, anything else reports that there was no suggestion. */
  function ReactToAi(reply: AiReply): (r: AiReaction)
    ensures r.Insert? <==> !Truthy(reply.error) && Truthy(reply.suggestion)
    ensures r.Insert? ==> r.text == reply.suggestion.value && r.text != ""
    ensures Truthy(reply.error) ==> r == Notify("AI completion error: " + reply.error.value)
    ensures !Truthy(reply.error) && !Truthy(reply.suggestion) ==> r == Notify("No suggestion received from AI")
  {
    if Truthy(reply.error) then Notify("AI completion error: " + reply.error.value)
    else if Truthy(reply.suggestion) then Insert(reply.suggestion.value)
    else Notify("No suggestion received from AI")
  }

  /** The page's collaboration state. */
  class Session {
    /** The `room` parameter of the address the page was mounted with. */
    const addressRoom: Option<string>
    /** The `role` parameter of that address, "editor" when absent or empty. */
    const addressRole: string
    /** A socket has connected (`socket` is set). */
    var connected: bool
    /** The `sync-code` and relay handlers are registered on the socket. */
    var listening: bool
    var roomId: Option<RoomId>
    var role: string
    var code: string
    var language: Option<LanguageOption>
    var input: string
    /** Everything emitted on the socket, in order. */
    var sent: seq<ClientMessage>

    function Document(): Doc
      reads this
    {
      Doc(code, language, input)
    }

    /** The language can only be lost inside a room: outside one the page
        shows one of the four options. The handlers listen only in the room
        of the address. */
    predicate Valid()
      reads this
    {
      && (!Truthy(roomId) ==> language.Some? && language.value in Options)
      && (listening ==> Truthy(addressRoom) && roomId == addressRoom)
    }

    /** A page just mounted: Python, its template, no room, editor role. The
        address is read once, here, and never again. */
    constructor (room: Option<string>, urlRole: Option<string>)
      ensures Valid()
      ensures addressRoom == room && addressRole == Or(urlRole, Some("editor")).value
      ensures !connected && !listening && roomId == None && role == "editor" && sent == []
      ensures Document() == Doc(StarterCode(DefaultLanguage.value), Some(DefaultLanguage), "")
    {
      addressRoom := room;
      addressRole := Or(urlRole, Some("editor")).value;
      connected := false;
      listening := false;
      roomId := None;
      role := "editor";
      code := StarterCode(DefaultLanguage.value);
      language := Some(DefaultLanguage);
      input := "";
      sent := [];
    }

    /** The socket's `connect` event (the first connection and every
        reconnection), with the address read at mount. With a room in the
        address the page joins it under the declared role and registers the
        `sync-code` and relay handlers; without one it puts back the template
        of the language it had when it was mounted, the handler being created
        once at mount. */
    method OnConnect()
      requires Valid()
      modifies this
      ensures Valid() && connected
      ensures Truthy(addressRoom) ==>
                && listening && roomId == addressRoom && role == addressRole
                && sent == old(sent) + [JoinRoom(addressRoom.value, addressRole, false)]
                && Document() == old(Document())
      ensures !Truthy(addressRoom) ==>
                && !listening && roomId == old(roomId) && role == old(role) && sent == old(sent)
                && Document() == old(Document()).(code := StarterCode(DefaultLanguage.value))
    {
      connected := true;
      if Truthy(addressRoom) {
        roomId := addressRoom;
        role := addressRole;
        sent := sent + [JoinRoom(addressRoom.value, addressRole, false)];
        listening := true;
      } else {
        code := StarterCode(DefaultLanguage.value);
      }
    }

    /** `emitCodeChange`: the page's code always changes; the room is told
        only by an editor. */
    method EmitCodeChange(value: string)
      requires Valid()
      modifies this
      ensures Valid()
      ensures Document() == old(Document()).(code := value)
      ensures sent == old(sent) + AsSeq(EditMessage(connected, roomId, role, Code, value))
      ensures connected == old(connected) && listening == old(listening)
      ensures roomId == old(roomId) && role == old(role)
    {
      code := value;
      sent := sent + AsSeq(EditMessage(connected, roomId, role, Code, value));
    }

    /** `emitLanguageChange` with an option of the dropdown. Outside a room a
        change of mode also replaces the code by the new language's template
        (the effect on `language.value` and `roomId`); the room is not told
        about that code. */
    method EmitLanguageChange(lang: LanguageOption)
      requires Valid() && lang in Options
      modifies this
      ensures Valid()
      ensures language == Some(lang) && input == old(input)
      ensures code == (if !Truthy(roomId) && old(language) != Some(lang) then StarterCode(lang.value)
                       else old(code))
      ensures sent == old(sent) + AsSeq(EditMessage(connected, roomId, role, Language, lang.value))
      ensures connected == old(connected) && listening == old(listening)
      ensures roomId == old(roomId) && role == old(role)
    {
      var before := language;
      language := Some(lang);
      sent := sent + AsSeq(EditMessage(connected, roomId, role, Language, lang.value));
      if !Truthy(roomId) && before != Some(lang) {
        code := StarterCode(lang.value);
      }
    }

    /** `emitInputChange`. */
    method EmitInputChange(value: string)
      requires Valid()
      modifies this
      ensures Valid()
      ensures Document() == old(Document()).(input := value)
      ensures sent == old(sent) + AsSeq(EditMessage(connected, roomId, role, Input, value))
      ensures connected == old(connected) && listening == old(listening)
      ensures roomId == old(roomId) && role == old(role)
    {
      input := value;
      sent := sent + AsSeq(EditMessage(connected, roomId, role, Input, value));
    }

    /** The `sync-code` handler, registered only by a connection made with a
        room in the address. */
    method OnSyncCode(snap: Room)
      requires Valid() && listening
      modifies this
      ensures Valid()
      ensures Document() == ApplySnapshot(old(Document()), snap)
      ensures connected == old(connected) && listening == old(listening)
      ensures roomId == old(roomId) && role == old(role) && sent == old(sent)
    {
      if Truthy(snap.code) {
        code := snap.code.value;
      }
      if Truthy(snap.language) {
        language := FindByValue(snap.language.value);
      }
      if Truthy(snap.input) {
        input := snap.input.value;
      }
    }

    /** The relay handlers, registered with `sync-code`. */
    method OnRemoteEdit(f: Field, v: string)
      requires Valid() && listening
      modifies this
      ensures Valid()
      ensures Document() == ApplyRemote(old(Document()), f, v)
      ensures connected == old(connected) && listening == old(listening)
      ensures roomId == old(roomId) && role == old(role) && sent == old(sent)
    {
      match f {
        case Code => code := v;
        case Language => language := FindByValue(v);
        case Input => input := v;
      }
    }

    /** `generateShareLinks`: links for the current room, or for a new room
        `newId` (random in the page) that the page then joins as editor and
        fills with its three fields. Without a socket the emit throws after
        the room and role were set, and no links come back (`None`). */
    method ShareRoom(base: string, newId: RoomId) returns (links: Option<(string, string)>)
      requires Valid()
      modifies this
      ensures Valid()
      ensures links.None? <==> !connected && !Truthy(old(roomId))
      ensures links.Some? ==>
                links.value == ShareLinks(base, if Truthy(old(roomId)) then old(roomId).value else newId)
      ensures Truthy(old(roomId)) ==> && roomId == old(roomId) && role == old(role)
                                      && sent == old(sent) && Document() == old(Document())
      ensures !Truthy(old(roomId)) ==>
                && roomId == Some(newId) && role == "editor"
                && sent == old(sent) + (if connected then ShareMessages(newId, old(Document())) else [])
                && language == old(language) && input == old(input)
                && code == (if newId == "" then StarterCode(old(language).value.value) else old(code))
      ensures connected == old(connected) && listening == old(listening)
    {
      var id := Or(roomId, Some(newId)).value;
      links := if connected || Truthy(roomId) then Some(ShareLinks(base, id)) else None;
      if !Truthy(roomId) {
        var d := Document();
        roomId := Some(newId);
        role := "editor";
        if connected {
          sent := sent + ShareMessages(newId, d);
        }
        if newId == "" {
          code := StarterCode(language.value.value);
        }
      }
    }
  }
}
