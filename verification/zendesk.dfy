/**
 * The Zendesk tool server: how each of its four tools (create, get,
 * update and list tickets) turns its arguments and the captured request
 * headers into at most one Zendesk REST request, and how it turns the
 * reply, or the first thing that went wrong, into the tool's text.
 */
module Zendesk {
  import opened Wrappers
  import opened Values
  import opened Text

  // ---------------------------------------------------------------------
  // JSON bodies
  // ---------------------------------------------------------------------

  /** A JSON value as `JSON.stringify` writes it: object members keep their insertion order. */
  datatype Json = JStr(s: string) | JNum(n: int) | JBool(b: bool) | JArr(items: seq<Json>) | JObj(members: Members)

  /** The members of an object, in insertion order. */
  datatype Members = NoMembers | Member(key: Key, value: Json, rest: Members)

  /** The property names the tools write into request bodies. */
  datatype Key =
    | TicketKey | SubjectKey | DescriptionKey | RequesterKey | AssigneeKey
    | PriorityKey | TypeKey | TagsKey | StatusKey | CommentKey | BodyKey | PublicKey

  /** The JSON name of a key. */
  function Name(k: Key): string {
    match k
    case TicketKey => "ticket"
    case SubjectKey => "subject"
    case DescriptionKey => "description"
    case RequesterKey => "requester_id"
    case AssigneeKey => "assignee_id"
    case PriorityKey => "priority"
    case TypeKey => "type"
    case TagsKey => "tags"
    case StatusKey => "status"
    case CommentKey => "comment"
    case BodyKey => "body"
    case PublicKey => "public"
  }

  /** The keys of an object, in order. */
  function Keys(m: Members): seq<Key> {
    match m
    case NoMembers => []
    case Member(k, _, rest) => [k] + Keys(rest)
  }

  /** `obj[key]`: the value of the first member named `key`. */
  function Get(m: Members, key: Key): Option<Json>
  {
    match m
    case NoMembers => None
    case Member(k, v, rest) => if k == key then Some(v) else Get(rest, key)
  }

  /**
   * The member `key: v` in front of `rest` when `v` is defined:
   * `JSON.stringify` omits members whose value is `undefined`.
   */
  function Defined(key: Key, v: Option<Json>, rest: Members): Members {
    match v
    case Some(x) => Member(key, x, rest)
    case None => rest
  }

  lemma GetDefined(key: Key, v: Option<Json>, rest: Members)
    ensures forall k :: Get(Defined(key, v, rest), k) == if key == k && v.Some? then v else Get(rest, k)
  {
  }

  function StringArray(ss: seq<string>): (j: Json)
    ensures j.JArr? && |j.items| == |ss|
    ensures forall i :: 0 <= i < |ss| ==> j.items[i] == JStr(ss[i])
  {
    JArr(seq(|ss|, i requires 0 <= i < |ss| => JStr(ss[i])))
  }

  /** The strings of an array of strings; `None` when some element is not a string. */
  function StringsOf(items: seq<Json>): (r: Option<seq<string>>)
    ensures r.Some? ==> |r.value| == |items|
  {
    if items == [] then Some([])
    else if !items[0].JStr? then None
    else
      match StringsOf(items[1..])
      case None => None
      case Some(rest) => Some([items[0].s] + rest)
  }

  lemma {:induction false} StringsOfStringArray(ss: seq<string>)
    ensures StringsOf(StringArray(ss).items) == Some(ss)
  {
    if ss != [] {
      StringsOfStringArray(ss[1..]);
      assert StringArray(ss).items[1..] == StringArray(ss[1..]).items;
      assert [ss[0]] + ss[1..] == ss;
    }
  }

  function OptStr(v: Option<string>): Option<Json> {
    match v case Some(s) => Some(JStr(s)) case None => None
  }

  function OptNum(v: Option<int>): Option<Json> {
    match v case Some(n) => Some(JNum(n)) case None => None
  }

  function OptStrings(v: Option<seq<string>>): Option<Json> {
    match v case Some(ss) => Some(StringArray(ss)) case None => None
  }

  /** Reads a string member back. */
  function StrAt(members: Members, key: Key): Option<string> {
    match Get(members, key)
    case Some(JStr(s)) => Some(s)
    case _ => None
  }

  /** Reads a number member back. */
  function NumAt(members: Members, key: Key): Option<int> {
    match Get(members, key)
    case Some(JNum(n)) => Some(n)
    case _ => None
  }

  /** Reads an array-of-strings member back. */
  function StringsAt(members: Members, key: Key): Option<seq<string>> {
    match Get(members, key)
    case Some(JArr(items)) => StringsOf(items)
    case _ => None
  }

  // ---------------------------------------------------------------------
  // Requests (`makeZendeskRequest`)
  // ---------------------------------------------------------------------

  /** The three credentials the tools read from the request headers. */
  datatype Credentials = Credentials(subdomain: string, email: string, token: string)

  /** A request as handed to `fetch`. */
  datatype Request = Request(url: string, verb: string, headers: map<string, string>, body: Option<Json>)

  /** Base64 encoding of the credential string; the encoder itself is not modelled. */
  type Base64 = string -> string

  const ApiHost: string := ".zendesk.com/api/v2"

  /** The REST URL of `endpoint` on the account `subdomain`. */
  function ApiUrl(subdomain: string, endpoint: string): string {
    "https://" + subdomain + ApiHost + endpoint
  }

  /**
   * For a subdomain without a dot (a host label), the URL determines both
   * the subdomain and the endpoint.
   */
  lemma {:induction false} ApiUrlInjective(s1: string, e1: string, s2: string, e2: string)
    requires '.' !in s1 && '.' !in s2
    requires ApiUrl(s1, e1) == ApiUrl(s2, e2)
    ensures s1 == s2 && e1 == e2
  {
    var u := ApiUrl(s1, e1);
    assert u == "https://" + (s1 + (ApiHost + e1));
    assert u == "https://" + (s2 + (ApiHost + e2));
    var t := u[8..];
    assert t == s1 + (ApiHost + e1) && t == s2 + (ApiHost + e2);
    // The first dot of `t` ends the subdomain, on either reading.
    assert |s1| < |t| && t[|s1|] == '.' && forall i :: 0 <= i < |s1| ==> t[i] == s1[i];
    assert |s2| < |t| && t[|s2|] == '.' && forall i :: 0 <= i < |s2| ==> t[i] == s2[i];
    assert |s1| == |s2|;
    assert s1 == t[..|s1|] == s2;
    assert ApiHost + e1 == t[|s1|..] == ApiHost + e2;
    assert e1 == (ApiHost + e1)[|ApiHost|..];
    assert e2 == (ApiHost + e2)[|ApiHost|..];
  }

  /** The credential string that is Base64-encoded into the `Authorization` header. */
  function CredentialString(c: Credentials): string {
    c.email + "/token:" + c.token
  }

  /** A body is sent only for data on a `POST` or `PUT`. */
  predicate CarriesBody(verb: string) {
    verb == "POST" || verb == "PUT"
  }

  /**
   * `makeZendeskRequest` up to `fetch`: the URL, Basic authentication with
   * the API token, a JSON content type, and the data as body only on a
   * `POST` or `PUT`.
   */
  function BuildRequest(endpoint: string, verb: string, c: Credentials, data: Option<Json>, base64: Base64): (r: Request)
    ensures r.url == ApiUrl(c.subdomain, endpoint) && r.verb == verb
    ensures r.headers.Keys == {"Authorization", "Content-Type"}
    ensures r.headers["Authorization"] == "Basic " + base64(CredentialString(c))
    ensures r.headers["Content-Type"] == "application/json"
    ensures r.body.Some? <==> data.Some? && CarriesBody(verb)
    ensures r.body.Some? ==> r.body == data
  {
    var headers := map["Authorization" := "Basic " + base64(CredentialString(c)), "Content-Type" := "application/json"];
    Request(ApiUrl(c.subdomain, endpoint), verb, headers, if CarriesBody(verb) then data else None)
  }

  /** A GET never carries a body, whatever data is passed. */
  lemma GetHasNoBody(endpoint: string, c: Credentials, data: Option<Json>, base64: Base64)
    ensures BuildRequest(endpoint, "GET", c, data, base64).body == None
  {
  }

  /** A ticket as the reply describes it; each field is whatever JSON value the reply holds. */
  datatype Ticket = Ticket(
    id: Field,
    subject: Field,
    status: Field,
    priority: Field,
    ticketType: Field,
    description: Field,
    requesterId: Field,
    assigneeId: Field,
    createdAt: Field,
    updatedAt: Field,
    tags: Option<seq<string>>)

  /** The decoded reply: its `ticket` and `tickets` properties, either of which may be missing. */
  datatype Reply = Reply(ticket: Option<Ticket>, tickets: Option<seq<Ticket>>)

  /**
   * A response: status line, the result of `response.text()` and the result
   * of `response.json()`; each failure carries the message that read
   * rejects with (for `json()`, the JSON decoder's error).
   */
  datatype Response = Response(status: int, statusText: string, text: Result<string, string>, json: Result<Reply, string>)

  /** The Zendesk server: a response, or the message `fetch` rejects with. */
  type Server = Request -> Result<Response, string>

  function ApiErrorMessage(status: int, statusText: string, errorText: string): string {
    "Zendesk API error: " + IntToString(status) + " " + statusText + " - " + errorText
  }

  /** The status of a failed call can be read back from the error message. */
  lemma ApiErrorNamesStatus(status: nat, statusText: string, errorText: string)
    ensures var m := ApiErrorMessage(status, statusText, errorText);
            |"Zendesk API error: "| <= |m|
            && DigitsValue(LeadingDigits(m[|"Zendesk API error: "|..])) == status
  {
    var m := ApiErrorMessage(status, statusText, errorText);
    var rest := " " + statusText + " - " + errorText;
    assert m == "Zendesk API error: " + IntToString(status) + rest;
    NumberReadBack("Zendesk API error: ", status, rest);
  }

  /** What `makeZendeskRequest` resolves to: the decoded reply, or the error it throws. */
  function Answer(response: Result<Response, string>): (r: Result<Reply, string>)
    ensures response.Failure? ==> r == Failure(response.error)
    ensures response.Success? && !IsOk(response.value.status) && response.value.text.Success?
            ==> r == Failure(ApiErrorMessage(response.value.status, response.value.statusText, response.value.text.value))
    ensures response.Success? && !IsOk(response.value.status) && response.value.text.Failure?
            ==> r == Failure(response.value.text.error)
    ensures response.Success? && IsOk(response.value.status) ==> r == response.value.json
  {
    match response
    case Failure(e) => Failure(e)
    case Success(resp) =>
      if !IsOk(resp.status) then
        match resp.text
        case Failure(e) => Failure(e)
        case Success(errorText) => Failure(ApiErrorMessage(resp.status, resp.statusText, errorText))
      else resp.json
  }

  // ---------------------------------------------------------------------
  // Credentials
  // ---------------------------------------------------------------------

  const CredentialsMessage: string :=
    "One or more Zendesk credentials not found in headers: must have zendesk-subdomain, zendesk-email, and zendesk-token"

  /** The three credentials are set and non-empty in the captured headers. */
  predicate HasCredentials(headers: Option<map<string, string>>) {
    && headers.Some?
    && Present(Lookup(headers.value, "zendesk-subdomain"))
    && Present(Lookup(headers.value, "zendesk-email"))
    && Present(Lookup(headers.value, "zendesk-token"))
  }

  /**
   * The credential check every tool makes: the headers of the request
   * being served (none before the first request) must carry all three
   * credentials, non-empty.
   */
  function ReadCredentials(headers: Option<map<string, string>>): (r: Result<Credentials, string>)
    ensures r.Success? <==> HasCredentials(headers)
    ensures r.Failure? ==> r.error == CredentialsMessage
    ensures r.Success? ==>
              && Lookup(headers.value, "zendesk-subdomain") == Some(r.value.subdomain)
              && Lookup(headers.value, "zendesk-email") == Some(r.value.email)
              && Lookup(headers.value, "zendesk-token") == Some(r.value.token)
              && r.value.subdomain != "" && r.value.email != "" && r.value.token != ""
  {
    if !HasCredentials(headers) then Failure(CredentialsMessage)
    else
      var h := headers.value;
      Success(Credentials(h["zendesk-subdomain"], h["zendesk-email"], h["zendesk-token"]))
  }

  /** One call of a tool to the API: the requests made (none or one) and what came of them. */
  datatype Attempt = Attempt(requests: seq<Request>, outcome: Result<Reply, string>)

  /**
   * The credential check, then `makeZendeskRequest`: without credentials
   * no request is made and the call fails with the credentials message.
   */
  function Perform(
    headers: Option<map<string, string>>, server: Server, base64: Base64,
    endpoint: string, verb: string, data: Option<Json>): (a: Attempt)
    ensures a.requests == [] <==> !HasCredentials(headers)
    ensures !HasCredentials(headers) ==> a.outcome == Failure(CredentialsMessage)
    ensures HasCredentials(headers) ==>
              var req := BuildRequest(endpoint, verb, ReadCredentials(headers).value, data, base64);
              a.requests == [req] && a.outcome == Answer(server(req))
  {
    match ReadCredentials(headers)
    case Failure(e) => Attempt([], Failure(e))
    case Success(c) =>
      var req := BuildRequest(endpoint, verb, c, data, base64);
      Attempt([req], Answer(server(req)))
  }

  // ---------------------------------------------------------------------
  // Tool texts
  // ---------------------------------------------------------------------

  /** What a tool returns: the requests it made and its text. */
  datatype ToolRun = ToolRun(requests: seq<Request>, text: string)

  /** `String(x)` of a ticket field with a fallback for falsy values (`x || fallback`). */
  function OrDefault(f: Field, fallback: string): string {
    if Truthy(f) then Render(f) else fallback
  }

  /** The agent-facing link to a ticket. */
  function TicketLink(subdomain: string, id: Field): string {
    "https://" + subdomain + ".zendesk.com/agent/tickets/" + Render(id)
  }

  /** `tags?.join(", ") || "None"`. */
  function TagsText(tags: Option<seq<string>>): string {
    match tags
    case Some(ts) => if Join(ts, ", ") != "" then Join(ts, ", ") else "None"
    case None => "None"
  }

  /** The message of the `TypeError` from reading `prop` of a missing object. */
  function UndefinedReadMessage(prop: string): string {
    "Cannot read properties of undefined (reading '" + prop + "')"
  }

  /** The lines of the text after a ticket was created. */
  function CreatedLines(subdomain: string, t: Ticket): seq<string> {
    [ "Successfully created Zendesk ticket #" + Render(t.id) + ":",
      "",
      "Subject: " + Render(t.subject),
      "Status: " + Render(t.status),
      "Priority: " + OrDefault(t.priority, "normal"),
      "Type: " + OrDefault(t.ticketType, "question"),
      "Created: " + Render(t.createdAt),
      "URL: " + TicketLink(subdomain, t.id) ]
  }

  /** The lines of the text describing one ticket. */
  function TicketLines(subdomain: string, t: Ticket): seq<string> {
    [ "Zendesk Ticket #" + Render(t.id) + ":",
      "",
      "Subject: " + Render(t.subject),
      "Status: " + Render(t.status),
      "Priority: " + Render(t.priority),
      "Type: " + Render(t.ticketType),
      "Description: " + Render(t.description),
      "Requester ID: " + Render(t.requesterId),
      "Assignee ID: " + Render(t.assigneeId),
      "Created: " + Render(t.createdAt),
      "Updated: " + Render(t.updatedAt),
      "Tags: " + TagsText(t.tags),
      "URL: " + TicketLink(subdomain, t.id) ]
  }

  /** The summary line of one ticket in a list. */
  function SummaryLine(t: Ticket): string {
    "#" + Render(t.id) + ": " + Render(t.subject) + " (" + Render(t.status) + ", " + Render(t.priority) + ")"
  }

  function SummaryLines(ts: seq<Ticket>): (lines: seq<string>)
    ensures |lines| == |ts|
    ensures forall i :: 0 <= i < |ts| ==> lines[i] == SummaryLine(ts[i])
  {
    if ts == [] then [] else [SummaryLine(ts[0])] + SummaryLines(ts[1..])
  }

  /** The text of a tool: its own text on success, the failure prefix and the message otherwise. */
  function ToolText(failurePrefix: string, r: Result<string, string>): string {
    match r
    case Success(text) => text
    case Failure(e) => failurePrefix + e
  }

  // ---------------------------------------------------------------------
  // create_zendesk_ticket
  // ---------------------------------------------------------------------

  /** The arguments of `create_zendesk_ticket`; the optional ones may be left undefined. */
  datatype CreateArgs = CreateArgs(
    subject: string,
    description: string,
    requesterId: Option<int>,
    assigneeId: Option<int>,
    priority: Option<string>,
    ticketType: Option<string>,
    tags: Option<seq<string>>)

  /** The members of the new ticket, in the order they are written; undefined ones are omitted. */
  function CreateMembers(a: CreateArgs): Members {
    Member(SubjectKey, JStr(a.subject), Member(DescriptionKey, JStr(a.description), OptionalCreateMembers(a)))
  }

  function OptionalCreateMembers(a: CreateArgs): Members {
    Defined(RequesterKey, OptNum(a.requesterId),
    Defined(AssigneeKey, OptNum(a.assigneeId),
    Defined(PriorityKey, OptStr(a.priority),
    Defined(TypeKey, OptStr(a.ticketType),
    Defined(TagsKey, OptStrings(a.tags), NoMembers)))))
  }

  /** The body of the create request. */
  function CreatePayload(a: CreateArgs): Json {
    JObj(Member(TicketKey, JObj(CreateMembers(a)), NoMembers))
  }

  /** The create arguments as read back from the ticket members. */
  function ReadCreate(members: Members): Option<CreateArgs> {
    match (StrAt(members, SubjectKey), StrAt(members, DescriptionKey))
    case (Some(subject), Some(description)) =>
      Some(CreateArgs(subject, description, NumAt(members, RequesterKey), NumAt(members, AssigneeKey),
                      StrAt(members, PriorityKey), StrAt(members, TypeKey), StringsAt(members, TagsKey)))
    case _ => None
  }

  /** A defined member placed in front of members without its key reads back as the value given. */
  lemma DefinedReadBack(key: Key, v: Option<Json>, rest: Members)
    requires Get(rest, key) == None
    ensures Get(Defined(key, v, rest), key) == v
    ensures forall k :: k != key ==> Get(Defined(key, v, rest), k) == Get(rest, k)
  {
  }

  /** The optional members of the create body read back as the optional arguments. */
  lemma {:induction false} OptionalCreateReadBack(a: CreateArgs)
    ensures var o := OptionalCreateMembers(a);
            && NumAt(o, RequesterKey) == a.requesterId && NumAt(o, AssigneeKey) == a.assigneeId
            && StrAt(o, PriorityKey) == a.priority && StrAt(o, TypeKey) == a.ticketType
            && StringsAt(o, TagsKey) == a.tags
            && Get(o, SubjectKey) == None && Get(o, DescriptionKey) == None
  {
    var tags := Defined(TagsKey, OptStrings(a.tags), NoMembers);
    DefinedReadBack(TagsKey, OptStrings(a.tags), NoMembers);
    var ty := Defined(TypeKey, OptStr(a.ticketType), tags);
    DefinedReadBack(TypeKey, OptStr(a.ticketType), tags);
    var pr := Defined(PriorityKey, OptStr(a.priority), ty);
    DefinedReadBack(PriorityKey, OptStr(a.priority), ty);
    var asg := Defined(AssigneeKey, OptNum(a.assigneeId), pr);
    DefinedReadBack(AssigneeKey, OptNum(a.assigneeId), pr);
    var o := Defined(RequesterKey, OptNum(a.requesterId), asg);
    DefinedReadBack(RequesterKey, OptNum(a.requesterId), asg);
    assert Get(o, TagsKey) == OptStrings(a.tags);
    if a.tags.Some? { StringsOfStringArray(a.tags.value); }
  }

  /** The create body records every argument given, and nothing in place of those left undefined. */
  lemma {:induction false} CreatePayloadRoundTrip(a: CreateArgs)
    ensures CreatePayload(a).members.key == TicketKey
    ensures ReadCreate(CreatePayload(a).members.value.members) == Some(a)
  {
    OptionalCreateReadBack(a);
    var o := OptionalCreateMembers(a);
    var d := Member(DescriptionKey, JStr(a.description), o);
    var m := Member(SubjectKey, JStr(a.subject), d);
    assert NumAt(m, RequesterKey) == NumAt(d, RequesterKey) == NumAt(o, RequesterKey);
    assert NumAt(m, AssigneeKey) == NumAt(d, AssigneeKey) == NumAt(o, AssigneeKey);
    assert StrAt(m, PriorityKey) == StrAt(d, PriorityKey) == StrAt(o, PriorityKey);
    assert StrAt(m, TypeKey) == StrAt(d, TypeKey) == StrAt(o, TypeKey);
    assert StringsAt(m, TagsKey) == StringsAt(d, TagsKey) == StringsAt(o, TagsKey);
    assert Get(m, DescriptionKey) == Get(d, DescriptionKey) == Some(JStr(a.description));
    assert StrAt(m, SubjectKey) == Some(a.subject) && StrAt(m, DescriptionKey) == Some(a.description);
    assert CreatePayload(a).members.value.members == m;
  }

  /** The text after a ticket was created; a reply without `ticket` makes the first read throw. */
  function CreatedText(subdomain: string, reply: Reply): Result<string, string> {
    match reply.ticket
    case None => Failure(UndefinedReadMessage("id"))
    case Some(t) => Success(Join(CreatedLines(subdomain, t), "\n"))
  }

  const CreateFailure: string := "Failed to create Zendesk ticket: "

  /**
   * `create_zendesk_ticket`: POSTs the new ticket to `/tickets.json` and
   * describes the created ticket; every failure, the credential check
   * included, becomes the failure text.
   */
  function CreateTicket(a: CreateArgs, headers: Option<map<string, string>>, server: Server, base64: Base64): (run: ToolRun)
    ensures run.requests == [] <==> !HasCredentials(headers)
    ensures !HasCredentials(headers) ==> run.text == CreateFailure + CredentialsMessage
    ensures HasCredentials(headers) ==>
              var c := ReadCredentials(headers).value;
              var req := BuildRequest("/tickets.json", "POST", c, Some(CreatePayload(a)), base64);
              && run.requests == [req]
              && (Answer(server(req)).Failure? ==> run.text == CreateFailure + Answer(server(req)).error)
              && (Answer(server(req)).Success? && Answer(server(req)).value.ticket.Some?
                  ==> run.text == Join(CreatedLines(c.subdomain, Answer(server(req)).value.ticket.value), "\n"))
              && (Answer(server(req)).Success? && Answer(server(req)).value.ticket.None?
                  ==> run.text == CreateFailure + UndefinedReadMessage("id"))
  {
    var at := Perform(headers, server, base64, "/tickets.json", "POST", Some(CreatePayload(a)));
    match at.outcome
    case Failure(e) => ToolRun(at.requests, CreateFailure + e)
    case Success(reply) => ToolRun(at.requests, ToolText(CreateFailure, CreatedText(ReadCredentials(headers).value.subdomain, reply)))
  }

  /** The create request carries its payload: `POST` is a body-carrying verb. */
  lemma CreateSendsPayload(a: CreateArgs, headers: Option<map<string, string>>, server: Server, base64: Base64)
    requires HasCredentials(headers)
    ensures var run := CreateTicket(a, headers, server, base64);
            |run.requests| == 1 && run.requests[0].verb == "POST" && run.requests[0].body == Some(CreatePayload(a))
            && run.requests[0].url == ApiUrl(Lookup(headers.value, "zendesk-subdomain").value, "/tickets.json")
  {
  }

  /** A string that is one line of text. */
  predicate OneLine(s: string) {
    '\n' !in s
  }

  /**
   * The created-ticket text splits back into its eight lines, and shows
   * priority `normal` and type `question` for a ticket that has none.
   */
  lemma {:induction false} CreatedTextReadBack(subdomain: string, t: Ticket)
    requires OneLine(subdomain) && OneLine(Render(t.id)) && OneLine(Render(t.subject)) && OneLine(Render(t.status))
    requires OneLine(Render(t.priority)) && OneLine(Render(t.ticketType)) && OneLine(Render(t.createdAt))
    ensures var lines := Split(Join(CreatedLines(subdomain, t), "\n"), '\n');
            && |lines| == 8
            && lines[4] == "Priority: " + (if Truthy(t.priority) then Render(t.priority) else "normal")
            && lines[5] == "Type: " + (if Truthy(t.ticketType) then Render(t.ticketType) else "question")
            && lines[7] == "URL: " + TicketLink(subdomain, t.id)
  {
    CreatedLinesAreLines(subdomain, t);
    SplitJoin(CreatedLines(subdomain, t), '\n');
  }

  lemma CreatedLinesAreLines(subdomain: string, t: Ticket)
    requires OneLine(subdomain) && OneLine(Render(t.id)) && OneLine(Render(t.subject)) && OneLine(Render(t.status))
    requires OneLine(Render(t.priority)) && OneLine(Render(t.ticketType)) && OneLine(Render(t.createdAt))
    ensures NoneContains(CreatedLines(subdomain, t), '\n')
  {
    var lines := CreatedLines(subdomain, t);
    forall i | 0 <= i < |lines| ensures '\n' !in lines[i] {
      if i == 0 { assert '\n' !in "Successfully created Zendesk ticket #" && '\n' !in ":"; }
      else if i == 7 { assert '\n' !in "URL: https://" && '\n' !in ".zendesk.com/agent/tickets/"; }
    }
  }

  // ---------------------------------------------------------------------
  // get_zendesk_ticket
  // ---------------------------------------------------------------------

  /** The endpoint of one ticket. */
  function TicketEndpoint(ticketId: int): string {
    "/tickets/" + IntToString(ticketId) + ".json"
  }

  function TicketText(subdomain: string, reply: Reply): Result<string, string> {
    match reply.ticket
    case None => Failure(UndefinedReadMessage("id"))
    case Some(t) => Success(Join(TicketLines(subdomain, t), "\n"))
  }

  function GetFailure(ticketId: int): string {
    "Failed to retrieve ticket #" + IntToString(ticketId) + ": "
  }

  /** `get_zendesk_ticket`: GETs one ticket and describes it. */
  function GetTicket(ticketId: int, headers: Option<map<string, string>>, server: Server, base64: Base64): (run: ToolRun)
    ensures run.requests == [] <==> !HasCredentials(headers)
    ensures !HasCredentials(headers) ==> run.text == GetFailure(ticketId) + CredentialsMessage
    ensures HasCredentials(headers) ==>
              var c := ReadCredentials(headers).value;
              var req := BuildRequest(TicketEndpoint(ticketId), "GET", c, None, base64);
              && run.requests == [req]
              && req.body == None
              && (Answer(server(req)).Failure? ==> run.text == GetFailure(ticketId) + Answer(server(req)).error)
              && (Answer(server(req)).Success? && Answer(server(req)).value.ticket.Some?
                  ==> run.text == Join(TicketLines(c.subdomain, Answer(server(req)).value.ticket.value), "\n"))
              && (Answer(server(req)).Success? && Answer(server(req)).value.ticket.None?
                  ==> run.text == GetFailure(ticketId) + UndefinedReadMessage("id"))
  {
    var at := Perform(headers, server, base64, TicketEndpoint(ticketId), "GET", None);
    match at.outcome
    case Failure(e) => ToolRun(at.requests, GetFailure(ticketId) + e)
    case Success(reply) => ToolRun(at.requests, ToolText(GetFailure(ticketId), TicketText(ReadCredentials(headers).value.subdomain, reply)))
  }

  /** The ticket id in the endpoint can be read back. */
  lemma TicketEndpointNamesTicket(ticketId: nat)
    ensures var e := TicketEndpoint(ticketId);
            |"/tickets/"| <= |e| && DigitsValue(LeadingDigits(e[|"/tickets/"|..])) == ticketId
  {
    assert TicketEndpoint(ticketId) == "/tickets/" + IntToString(ticketId) + ".json";
    NumberReadBack("/tickets/", ticketId, ".json");
  }

  /**
   * A ticket's tags read `None` exactly when there is no tag text to show:
   * no tags, no tag, or a single empty tag (or one literally named `None`).
   */
  lemma TagsShown(tags: Option<seq<string>>)
    ensures TagsText(tags) == "None" <==> tags.None? || tags.value == [] || tags.value == [""] || Join(tags.value, ", ") == "None"
    ensures tags.Some? && Join(tags.value, ", ") != "" ==> TagsText(tags) == Join(tags.value, ", ")
  {
    if tags.Some? && |tags.value| > 1 {
      assert |Join(tags.value, ", ")| >= 2;
    }
  }

  // ---------------------------------------------------------------------
  // update_zendesk_ticket
  // ---------------------------------------------------------------------

  /** The arguments of `update_zendesk_ticket`; every field but the id may be left undefined. */
  datatype UpdateArgs = UpdateArgs(
    ticketId: int,
    subject: Option<string>,
    status: Option<string>,
    priority: Option<string>,
    assigneeId: Option<int>,
    tags: Option<seq<string>>,
    comment: Option<string>)

  /** A comment is added as a public comment. */
  function CommentJson(comment: Option<string>): Option<Json> {
    match comment
    case Some(c) => Some(JObj(Member(BodyKey, JStr(c), Member(PublicKey, JBool(true), NoMembers))))
    case None => None
  }

  /** The members of the ticket update: one per argument supplied, in a fixed order. */
  function UpdateMembers(a: UpdateArgs): Members {
    Defined(SubjectKey, OptStr(a.subject),
    Defined(StatusKey, OptStr(a.status),
    Defined(PriorityKey, OptStr(a.priority),
    Defined(AssigneeKey, OptNum(a.assigneeId),
    Defined(TagsKey, OptStrings(a.tags),
    Defined(CommentKey, CommentJson(a.comment), NoMembers))))))
  }

  /** The body of the update request. */
  function UpdatePayload(a: UpdateArgs): Json {
    JObj(Member(TicketKey, JObj(UpdateMembers(a)), NoMembers))
  }

  /** The argument a key stands for was supplied. */
  predicate Supplied(a: UpdateArgs, k: Key) {
    match k
    case SubjectKey => a.subject.Some?
    case StatusKey => a.status.Some?
    case PriorityKey => a.priority.Some?
    case AssigneeKey => a.assigneeId.Some?
    case TagsKey => a.tags.Some?
    case CommentKey => a.comment.Some?
    case _ => false
  }

  /** The comment text of a comment object. */
  function CommentAt(members: Members): Option<string> {
    match Get(members, CommentKey)
    case Some(JObj(c)) => StrAt(c, BodyKey)
    case _ => None
  }

  /** The update arguments as read back from the ticket members. */
  function ReadUpdate(ticketId: int, members: Members): UpdateArgs {
    UpdateArgs(ticketId, StrAt(members, SubjectKey), StrAt(members, StatusKey), StrAt(members, PriorityKey),
               NumAt(members, AssigneeKey), StringsAt(members, TagsKey), CommentAt(members))
  }

  /** The JSON value an update argument is written as. */
  function SuppliedValue(a: UpdateArgs, k: Key): Option<Json> {
    match k
    case SubjectKey => OptStr(a.subject)
    case StatusKey => OptStr(a.status)
    case PriorityKey => OptStr(a.priority)
    case AssigneeKey => OptNum(a.assigneeId)
    case TagsKey => OptStrings(a.tags)
    case CommentKey => CommentJson(a.comment)
    case _ => None
  }

  lemma {:induction false} UpdateMembersHold(a: UpdateArgs)
    ensures forall k :: Get(UpdateMembers(a), k) == SuppliedValue(a, k)
  {
    var cm := Defined(CommentKey, CommentJson(a.comment), NoMembers);
    var tags := Defined(TagsKey, OptStrings(a.tags), cm);
    var asg := Defined(AssigneeKey, OptNum(a.assigneeId), tags);
    var pr := Defined(PriorityKey, OptStr(a.priority), asg);
    var st := Defined(StatusKey, OptStr(a.status), pr);
    GetDefined(CommentKey, CommentJson(a.comment), NoMembers);
    GetDefined(TagsKey, OptStrings(a.tags), cm);
    GetDefined(AssigneeKey, OptNum(a.assigneeId), tags);
    GetDefined(PriorityKey, OptStr(a.priority), asg);
    GetDefined(StatusKey, OptStr(a.status), pr);
    GetDefined(SubjectKey, OptStr(a.subject), st);
  }

  /**
   * The update holds exactly the supplied arguments: a member for each of
   * them and for nothing else, each reading back as given, and a comment
   * that is public.
   */
  lemma {:induction false} UpdatePayloadRoundTrip(a: UpdateArgs)
    ensures forall k :: Get(UpdateMembers(a), k).Some? <==> Supplied(a, k)
    ensures ReadUpdate(a.ticketId, UpdateMembers(a)) == a
    ensures a.comment.Some? ==>
              var c := Get(UpdateMembers(a), CommentKey).value;
              c.JObj? && Get(c.members, PublicKey) == Some(JBool(true))
  {
    UpdateMembersHold(a);
    var m := UpdateMembers(a);
    assert StrAt(m, SubjectKey) == a.subject && StrAt(m, StatusKey) == a.status && StrAt(m, PriorityKey) == a.priority;
    assert NumAt(m, AssigneeKey) == a.assigneeId && CommentAt(m) == a.comment;
    if a.tags.Some? { StringsOfStringArray(a.tags.value); }
    assert StringsAt(m, TagsKey) == a.tags;
  }

  function UpdateFailure(ticketId: int): string {
    "Failed to update ticket #" + IntToString(ticketId) + ": "
  }

  function UpdatedText(ticketId: int): string {
    "Successfully updated Zendesk ticket #" + IntToString(ticketId)
  }

  /**
   * `update_zendesk_ticket`: PUTs the update; the reply's content is not
   * used, but a reply that does not decode still fails the tool.
   */
  function UpdateTicket(a: UpdateArgs, headers: Option<map<string, string>>, server: Server, base64: Base64): (run: ToolRun)
    ensures run.requests == [] <==> !HasCredentials(headers)
    ensures !HasCredentials(headers) ==> run.text == UpdateFailure(a.ticketId) + CredentialsMessage
    ensures HasCredentials(headers) ==>
              var req := BuildRequest(TicketEndpoint(a.ticketId), "PUT", ReadCredentials(headers).value, Some(UpdatePayload(a)), base64);
              && run.requests == [req]
              && req.body == Some(UpdatePayload(a))
              && (Answer(server(req)).Failure? ==> run.text == UpdateFailure(a.ticketId) + Answer(server(req)).error)
              && (Answer(server(req)).Success? ==> run.text == UpdatedText(a.ticketId))
  {
    var at := Perform(headers, server, base64, TicketEndpoint(a.ticketId), "PUT", Some(UpdatePayload(a)));
    match at.outcome
    case Failure(e) => ToolRun(at.requests, UpdateFailure(a.ticketId) + e)
    case Success(_) => ToolRun(at.requests, UpdatedText(a.ticketId))
  }

  // ---------------------------------------------------------------------
  // list_zendesk_tickets
  // ---------------------------------------------------------------------

  /** The arguments of `list_zendesk_tickets`, all optional. */
  datatype ListArgs = ListArgs(
    page: Option<int>,
    perPage: Option<int>,
    sortBy: Option<string>,
    sortOrder: Option<string>,
    status: Option<string>,
    assigneeId: Option<int>)

  /** The largest page size the API is asked for. */
  const MaxPerPage: int := 100

  function PageOf(a: ListArgs): int { a.page.GetOr(1) }
  function PerPageOf(a: ListArgs): int { a.perPage.GetOr(25) }
  function SortByOf(a: ListArgs): string { a.sortBy.GetOr("created_at") }
  function SortOrderOf(a: ListArgs): string { a.sortOrder.GetOr("desc") }

  /** `Math.min(per_page, 100)`. */
  function SentPerPage(a: ListArgs): (n: int)
    ensures n <= MaxPerPage && (n == PerPageOf(a) || n == MaxPerPage)
    ensures PerPageOf(a) <= MaxPerPage ==> n == PerPageOf(a)
  {
    if PerPageOf(a) < MaxPerPage then PerPageOf(a) else MaxPerPage
  }

  /** The assignee filter applies: the id is given and not 0 (a falsy number). */
  predicate FiltersAssignee(a: ListArgs) {
    a.assigneeId.Some? && a.assigneeId.value != 0
  }

  /** The query parameters of the list request. */
  datatype QueryKey = PageParam | PerPageParam | SortByParam | SortOrderParam | StatusParam | AssigneeParam

  function QueryName(k: QueryKey): string {
    match k
    case PageParam => "page"
    case PerPageParam => "per_page"
    case SortByParam => "sort_by"
    case SortOrderParam => "sort_order"
    case StatusParam => "status"
    case AssigneeParam => "assignee_id"
  }

  datatype Param = Param(key: QueryKey, value: string)

  /**
   * The query of the list request: page, clamped page size and sort with
   * their defaults, then the status filter when the status is non-empty
   * and the assignee filter when the id is non-zero.
   */
  function ListParams(a: ListArgs): (ps: seq<Param>)
    ensures |ps| == 4 + (if Present(a.status) then 1 else 0) + (if FiltersAssignee(a) then 1 else 0)
    ensures ps[0].key == PageParam && ps[1].key == PerPageParam
    ensures ps[2] == Param(SortByParam, SortByOf(a)) && ps[3] == Param(SortOrderParam, SortOrderOf(a))
    ensures forall i :: 4 <= i < |ps| ==> ps[i].key == StatusParam || ps[i].key == AssigneeParam
    ensures Present(a.status) ==> ps[4] == Param(StatusParam, a.status.value)
    ensures FiltersAssignee(a) ==> ps[|ps| - 1].key == AssigneeParam
  {
    [ Param(PageParam, IntToString(PageOf(a))),
      Param(PerPageParam, IntToString(SentPerPage(a))),
      Param(SortByParam, SortByOf(a)),
      Param(SortOrderParam, SortOrderOf(a)) ]
    + (if Present(a.status) then [Param(StatusParam, a.status.value)] else [])
    + (if FiltersAssignee(a) then [Param(AssigneeParam, IntToString(a.assigneeId.value))] else [])
  }

  /** The numbers sent read back as the page, the clamped page size and the assignee. */
  lemma ListParamsReadBack(a: ListArgs)
    ensures var ps := ListParams(a);
            && ParseInt(ps[0].value) == Some(PageOf(a))
            && ParseInt(ps[1].value) == Some(SentPerPage(a))
            && (FiltersAssignee(a) ==> ParseInt(ps[|ps| - 1].value) == a.assigneeId)
  {
    var ps := ListParams(a);
    IntToStringRoundTrip(PageOf(a));
    IntToStringRoundTrip(SentPerPage(a));
    if FiltersAssignee(a) {
      IntToStringRoundTrip(a.assigneeId.value);
      assert ps[|ps| - 1] == Param(AssigneeParam, IntToString(a.assigneeId.value));
    }
  }

  /** `name=value` for each parameter. */
  function Fields(ps: seq<Param>): (fs: seq<string>)
    ensures |fs| == |ps|
    ensures forall i :: 0 <= i < |ps| ==> fs[i] == QueryName(ps[i].key) + "=" + ps[i].value
  {
    if ps == [] then [] else [QueryName(ps[0].key) + "=" + ps[0].value] + Fields(ps[1..])
  }

  /** `URLSearchParams.toString()` for values that need no escaping. */
  function Query(ps: seq<Param>): string {
    Join(Fields(ps), "&")
  }

  /** Reads a query back into name and value pairs. */
  function ParseQuery(q: string): seq<(string, string)> {
    var parts := Split(q, '&');
    seq(|parts|, i requires 0 <= i < |parts| =>
      var kv := Split(parts[i], '=');
      (kv[0], Join(kv[1..], "=")))
  }

  /** A value that a query carries unescaped. */
  predicate QuerySafe(s: string) {
    '&' !in s && '=' !in s
  }

  lemma QueryNamesSafe(k: QueryKey)
    ensures QuerySafe(QueryName(k))
  {
  }

  lemma IntToStringSafe(i: int)
    ensures QuerySafe(IntToString(i))
  {
    var s := IntToString(i);
    var d := NatToString(if i < 0 then -i else i);
    assert forall c :: c in d ==> IsDigit(c);
    assert forall c :: c in s ==> c == '-' || c in d;
  }

  /** Field by field: `name=value` splits at its one `=`. */
  lemma FieldSplits(name: string, value: string)
    requires QuerySafe(name) && QuerySafe(value)
    ensures var kv := Split(name + "=" + value, '=');
            |kv| == 2 && kv[0] == name && Join(kv[1..], "=") == value
  {
    SplitAtSeparator(name, value, '=');
    SplitNoSeparator(value, '=');
    assert Split(name + "=" + value, '=') == [name, value];
  }

  /** A query of safe values reads back as its parameters, in order. */
  lemma {:induction false} QueryRoundTrip(ps: seq<Param>)
    requires |ps| >= 1
    requires forall i :: 0 <= i < |ps| ==> QuerySafe(ps[i].value)
    ensures var r := ParseQuery(Query(ps));
            |r| == |ps| && forall i :: 0 <= i < |ps| ==> r[i] == (QueryName(ps[i].key), ps[i].value)
  {
    var fs := Fields(ps);
    forall i | 0 <= i < |fs| ensures '&' !in fs[i] {
      QueryNamesSafe(ps[i].key);
    }
    SplitJoin(fs, '&');
    var r := ParseQuery(Query(ps));
    forall i | 0 <= i < |ps| ensures r[i] == (QueryName(ps[i].key), ps[i].value) {
      QueryNamesSafe(ps[i].key);
      FieldSplits(QueryName(ps[i].key), ps[i].value);
    }
  }

  /**
   * The list query reads back as its parameters whenever the sort and
   * status arguments need no escaping, as every value the tool accepts does.
   */
  lemma ListQueryRoundTrip(a: ListArgs)
    requires QuerySafe(SortByOf(a)) && QuerySafe(SortOrderOf(a))
    requires a.status.Some? ==> QuerySafe(a.status.value)
    ensures var ps := ListParams(a);
            var r := ParseQuery(Query(ps));
            |r| == |ps| && forall i :: 0 <= i < |ps| ==> r[i] == (QueryName(ps[i].key), ps[i].value)
  {
    var ps := ListParams(a);
    IntToStringSafe(PageOf(a));
    IntToStringSafe(SentPerPage(a));
    if FiltersAssignee(a) { IntToStringSafe(a.assigneeId.value); }
    assert forall i :: 0 <= i < |ps| ==> QuerySafe(ps[i].value);
    QueryRoundTrip(ps);
  }

  /** The text listing the tickets: the count, then the tickets and the paging. */
  function ListText(a: ListArgs, ts: seq<Ticket>): string {
    "Found " + IntToString(|ts|) + ListBody(a, ts)
  }

  /** The listing after the count; the page size shown is the one requested, before clamping. */
  function ListBody(a: ListArgs, ts: seq<Ticket>): string {
    " tickets:\n\n" + Join(SummaryLines(ts), "\n") + "\n\n"
    + "Page: " + IntToString(PageOf(a)) + " | Per page: " + IntToString(PerPageOf(a))
    + " | Sort: " + SortByOf(a) + " " + SortOrderOf(a)
  }

  /** The number of tickets can be read back from the listing. */
  lemma ListTextCounts(a: ListArgs, ts: seq<Ticket>)
    ensures var text := ListText(a, ts);
            |"Found "| <= |text| && DigitsValue(LeadingDigits(text[|"Found "|..])) == |ts|
  {
    var rest := ListBody(a, ts);
    assert rest[0] == ' ';
    NumberReadBack("Found ", |ts|, rest);
  }

  function ListedText(a: ListArgs, reply: Reply): Result<string, string> {
    match reply.tickets
    case None => Failure(UndefinedReadMessage("map"))
    case Some(ts) => Success(ListText(a, ts))
  }

  const ListFailure: string := "Failed to retrieve tickets: "

  /** `list_zendesk_tickets`: GETs `/tickets.json` with the list query and lists the tickets. */
  function ListTickets(a: ListArgs, headers: Option<map<string, string>>, server: Server, base64: Base64): (run: ToolRun)
    ensures run.requests == [] <==> !HasCredentials(headers)
    ensures !HasCredentials(headers) ==> run.text == ListFailure + CredentialsMessage
    ensures HasCredentials(headers) ==>
              var req := BuildRequest("/tickets.json?" + Query(ListParams(a)), "GET", ReadCredentials(headers).value, None, base64);
              && run.requests == [req]
              && req.body == None
              && (Answer(server(req)).Failure? ==> run.text == ListFailure + Answer(server(req)).error)
              && (Answer(server(req)).Success? && Answer(server(req)).value.tickets.Some?
                  ==> run.text == ListText(a, Answer(server(req)).value.tickets.value))
              && (Answer(server(req)).Success? && Answer(server(req)).value.tickets.None?
                  ==> run.text == ListFailure + UndefinedReadMessage("map"))
  {
    var at := Perform(headers, server, base64, "/tickets.json?" + Query(ListParams(a)), "GET", None);
    match at.outcome
    case Failure(e) => ToolRun(at.requests, ListFailure + e)
    case Success(reply) => ToolRun(at.requests, ToolText(ListFailure, ListedText(a, reply)))
  }
}
