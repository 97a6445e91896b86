/**
 Repairs to one client's dialect: URIs are translated on the way in and out, and the disposal of a session is let
 through only while it is known to be an unused draft. Base64url is a parameter: some injective code without separators.
 */
module UriDialects {
  import opened Collections
  import opened Protocol

  type Uri = string

  const SESSION_SCHEME := "ahp-session"
  const SESSION_PREFIX := "ahp-session:/"
  const CHAT_PREFIX := "ahp-chat:/"
  const PROVIDER_SCHEME := "pi"
  const PROVIDER_PREFIX := "pi:/"
  const DERIVED_PREFIX := "ahp-chat://"

  type Code = string -> string

  predicate Segment(s: string) {
    s != "" && '/' !in s && '?' !in s && '#' !in s
  }

  /** Decoding undoes encoding, an encoded text is one path segment, and encoding does not shorten. */
  ghost predicate Codec(encode: Code, decode: Code) {
    forall s: string :: decode(encode(s)) == s && (s != "" ==> Segment(encode(s))) && |encode(s)| >= |s|
  }

  // ── Parsing ───────────────────────────────────────────────────────────────

  function Lower(c: char): char {
    if 'A' <= c <= 'Z' then ((c as int) + 32) as char else c
  }

  function LowerAll(s: string): string {
    seq(|s|, i requires 0 <= i < |s| => Lower(s[i]))
  }

  predicate Letter(c: char) { 'a' <= c <= 'z' || 'A' <= c <= 'Z' }

  predicate SchemeChar(c: char) { Letter(c) || '0' <= c <= '9' || c == '+' || c == '.' || c == '-' }

  predicate Scheme(s: string) {
    s != "" && Letter(s[0]) && forall i :: 0 <= i < |s| ==> SchemeChar(s[i])
  }

  datatype Channel = Channel(scheme: string, id: string)

  /** A scheme, a colon, a slash and one segment. */
  function ParseSingleSegmentChannel(uri: Uri): Option<Channel> {
    match FirstIndexOf(uri, ':')
    case None => None
    case Some(colon) =>
      var after := uri[colon + 1..];
      if Scheme(uri[..colon]) && after != "" && after[0] == '/' && Segment(after[1..])
      then Some(Channel(LowerAll(uri[..colon]), after[1..])) else None
  }

  /** The id of a canonical session URI, or of one in the provider's alias. */
  function ProviderSessionId(uri: Uri): Option<string> {
    match ParseSingleSegmentChannel(uri)
    case None => None
    case Some(c) => if c.scheme == SESSION_SCHEME || c.scheme == PROVIDER_SCHEME then Some(c.id) else None
  }

  function SessionUri(id: string): Uri { SESSION_PREFIX + id }

  function ChatUri(id: string): Uri { CHAT_PREFIX + id }

  function ChatIdFromUri(uri: Uri): Option<string> {
    if CHAT_PREFIX <= uri && |uri| > |CHAT_PREFIX| then Some(uri[|CHAT_PREFIX|..]) else None
  }

  predicate IsProviderSession(uri: Uri) {
    PROVIDER_PREFIX <= LowerAll(uri) && ProviderSessionId(uri).Some?
  }

  function CanonicalSessionUri(uri: Uri): Option<Uri> {
    match ProviderSessionId(uri) case None => None case Some(id) => Some(SessionUri(id))
  }

  function OwningSessionUri(uri: Uri): Option<Uri> {
    match CanonicalSessionUri(uri)
    case Some(session) => Some(session)
    case None => match ChatIdFromUri(uri) case None => None case Some(id) => Some(SessionUri(id))
  }

  /** The payload of a derived chat URI: an authority, a slash and one segment after the prefix. */
  function DerivedPayload(uri: Uri): Option<string> {
    if !(DERIVED_PREFIX <= uri) then None
    else
      var rest := uri[|DERIVED_PREFIX|..];
      match FirstIndexOf(rest, '/')
      case None => None
      case Some(slash) => if slash > 0 && Segment(rest[slash + 1..]) then Some(rest[slash + 1..]) else None
  }

  function SessionFromDerivedChat(decode: Code, uri: Uri): Option<Uri> {
    match DerivedPayload(uri)
    case None => None
    case Some(payload) => if IsProviderSession(decode(payload)) then Some(decode(payload)) else None
  }

  // ── Translation ───────────────────────────────────────────────────────────

  datatype Dialect = Canonical | Provider | Vscode

  function Inbound(decode: Code, uri: Uri, dialect: Dialect): Uri {
    var derived := SessionFromDerivedChat(decode, uri);
    if derived.Some? && ProviderSessionId(derived.value).Some? then ChatUri(ProviderSessionId(derived.value).value)
    else if dialect.Canonical? || !IsProviderSession(uri) then uri
    else match ProviderSessionId(uri) case None => uri case Some(id) => SessionUri(id)
  }

  function Outbound(encode: Code, uri: Uri, dialect: Dialect): Uri
    requires !dialect.Canonical?
  {
    match ChatIdFromUri(uri)
    case Some(id) => if dialect.Vscode? then DERIVED_PREFIX + "default/" + encode(PROVIDER_PREFIX + id) else uri
    case None => match ProviderSessionId(uri) case None => uri case Some(id) => PROVIDER_PREFIX + id
  }

  // ── Inbound undoes outbound ───────────────────────────────────────────────

  lemma LowerIsIdentity(s: string)
    requires forall i :: 0 <= i < |s| ==> !('A' <= s[i] <= 'Z')
    ensures LowerAll(s) == s
  {
  }

  /** A URI of a lower-case scheme, a slash and an id. */
  lemma SchemeParses(scheme: string, id: string)
    requires Scheme(scheme) && ':' !in scheme && forall i :: 0 <= i < |scheme| ==> !('A' <= scheme[i] <= 'Z')
    ensures ParseSingleSegmentChannel(scheme + ":/" + id) == if Segment(id) then Some(Channel(scheme, id)) else None
  {
    var uri := scheme + ":/" + id;
    assert uri == scheme + ":" + ("/" + id);
    IndexAtFirst(scheme, ':', "/" + id);
    assert uri[..|scheme|] == scheme && uri[|scheme| + 1..] == "/" + id && ("/" + id)[1..] == id;
    LowerIsIdentity(scheme);
  }

  lemma ProviderUriParses(id: string)
    ensures ProviderSessionId(PROVIDER_PREFIX + id) == if Segment(id) then Some(id) else None
    ensures IsProviderSession(PROVIDER_PREFIX + id) <==> Segment(id)
  {
    SchemeParses("pi", id);
    assert "pi" + ":/" + id == PROVIDER_PREFIX + id;
    StartsLower(PROVIDER_PREFIX, id);
  }

  lemma StartsLower(prefix: string, rest: string)
    requires forall i :: 0 <= i < |prefix| ==> !('A' <= prefix[i] <= 'Z')
    ensures prefix <= LowerAll(prefix + rest)
  {
  }

  lemma SessionUriParses(id: string)
    ensures ProviderSessionId(SessionUri(id)) == if Segment(id) then Some(id) else None
  {
    SchemeParses("ahp-session", id);
    assert "ahp-session" + ":/" + id == SessionUri(id);
  }

  lemma DerivedUriParses(payload: string)
    requires Segment(payload)
    ensures DerivedPayload(DERIVED_PREFIX + "default/" + payload) == Some(payload)
  {
    var uri := DERIVED_PREFIX + "default/" + payload;
    var rest := uri[|DERIVED_PREFIX|..];
    assert rest == "default" + "/" + payload;
    IndexAtFirst("default", '/', payload);
    assert rest[8..] == payload;
  }

  lemma NotProvider(uri: Uri)
    requires uri != "" && Lower(uri[0]) != 'p'
    ensures !IsProviderSession(uri)
  {
    assert LowerAll(uri)[0] == Lower(uri[0]);
  }

  /** The URI a chat is published under. */
  lemma ChatPublished(encode: Code, decode: Code, id: string)
    requires Codec(encode, decode) && id != ""
    ensures var uri := Outbound(encode, ChatUri(id), Vscode);
            && uri == DERIVED_PREFIX + "default/" + encode(PROVIDER_PREFIX + id)
            && DerivedPayload(uri) == Some(encode(PROVIDER_PREFIX + id))
            && |uri| > |ChatUri(id)| && uri[0] == 'a'
  {
    assert ChatUri(id)[|CHAT_PREFIX|..] == id;
    assert Segment(encode(PROVIDER_PREFIX + id));
    DerivedUriParses(encode(PROVIDER_PREFIX + id));
  }

  /** A chat this host minted comes back exactly when its id is a single segment, as every session id is. */
  lemma ChatRoundTripIff(encode: Code, decode: Code, id: string)
    requires Codec(encode, decode) && id != ""
    ensures Inbound(decode, Outbound(encode, ChatUri(id), Vscode), Vscode) == ChatUri(id) <==> Segment(id)
  {
    ChatPublished(encode, decode, id);
    ProviderUriParses(id);
    NotProvider(Outbound(encode, ChatUri(id), Vscode));
    assert decode(encode(PROVIDER_PREFIX + id)) == PROVIDER_PREFIX + id;
  }

  lemma DerivedIsChat(uri: Uri)
    requires DERIVED_PREFIX <= uri
    ensures CHAT_PREFIX <= uri && |uri| > |CHAT_PREFIX|
  {
    assert uri[..10] == CHAT_PREFIX;
  }

  lemma ChatIsNoSession(uri: Uri)
    requires CHAT_PREFIX <= uri
    ensures ProviderSessionId(uri).None?
  {
    var rest := uri[9..];
    assert uri == "ahp-chat" + ":" + rest;
    IndexAtFirst("ahp-chat", ':', rest);
    assert uri[..8] == "ahp-chat";
    LowerIsIdentity("ahp-chat");
  }

  lemma SessionNotChat(uri: Uri)
    requires ProviderSessionId(uri).Some?
    ensures ChatIdFromUri(uri).None? && DerivedPayload(uri).None?
  {
    if DERIVED_PREFIX <= uri { DerivedIsChat(uri); }
    if CHAT_PREFIX <= uri { ChatIsNoSession(uri); }
  }

  lemma SessionRoundTrip(encode: Code, decode: Code, uri: Uri, id: string)
    requires ProviderSessionId(uri) == Some(id)
    ensures Inbound(decode, Outbound(encode, uri, Vscode), Vscode) == SessionUri(id)
  {
    assert Segment(id);
    SessionNotChat(uri);
    ProviderUriParses(id);
    SessionNotChat(PROVIDER_PREFIX + id);
  }

  /** The whole picture, for every URI: a chat comes back exactly when its id is one segment, a session exactly when it
      was published in its canonical form, and anything else is left alone. */
  lemma InboundUndoesOutboundIff(encode: Code, decode: Code, uri: Uri)
    requires Codec(encode, decode)
    ensures Inbound(decode, Outbound(encode, uri, Vscode), Vscode) == uri
       <==> (match ChatIdFromUri(uri)
             case Some(id) => Segment(id)
             case None => ProviderSessionId(uri).Some? ==> uri == SessionUri(ProviderSessionId(uri).value))
  {
    match ChatIdFromUri(uri)
    case Some(id) =>
      assert uri == ChatUri(id);
      ChatRoundTripIff(encode, decode, id);
    case None =>
      if ProviderSessionId(uri).Some? {
        SessionRoundTrip(encode, decode, uri, ProviderSessionId(uri).value);
      } else {
        NotDerived(uri);
      }
  }

  lemma NotDerived(uri: Uri)
    requires ChatIdFromUri(uri).None?
    ensures DerivedPayload(uri).None?
  {
    if DERIVED_PREFIX <= uri { DerivedIsChat(uri); }
  }

  /** In particular, what the host mints for a session and its chat comes back as it was. */
  lemma HostUrisRoundTrip(encode: Code, decode: Code, id: string)
    requires Codec(encode, decode) && Segment(id)
    ensures Inbound(decode, Outbound(encode, SessionUri(id), Vscode), Vscode) == SessionUri(id)
    ensures Inbound(decode, Outbound(encode, ChatUri(id), Vscode), Vscode) == ChatUri(id)
  {
    SessionUriParses(id);
    SessionRoundTrip(encode, decode, SessionUri(id), id);
    ChatRoundTripIff(encode, decode, id);
  }
}

/** Which disposals the guard lets through. */
module SessionDisposalGuardSpec {
  import opened Protocol
  import U = UriDialects

  type Uri = U.Uri

  datatype Tracked = Creating | Empty | Materialized | Disposing

  datatype Request = CreateRequest(session: Uri) | DisposeRequest(session: Uri)

  /** Everything the guard has seen on its connection, oldest first. */
  datatype Event =
    | Created(id: nat, session: Uri, imported: bool)
    | Touched(session: Uri)                 // a materialising action on the session or its chat
    | Responded(id: nat, ok: bool)
    | Removed(session: Uri)
    | Disposed(id: nat, session: Uri)

  datatype Guard = Guard(sessions: map<Uri, Tracked>, pending: map<nat, Request>, seen: seq<Event>)

  const Fresh := Guard(map[], map[], [])

  function MarkMaterialized(g: Guard, channel: Uri): Guard {
    match U.OwningSessionUri(channel)
    case None => g
    case Some(session) =>
      Guard(if session in g.sessions then g.sessions[session := Materialized] else g.sessions, g.pending, g.seen + [Touched(session)])
  }

  function Create(g: Guard, id: nat, session: Uri, imported: bool): Guard {
    Guard(g.sessions[session := if imported then Materialized else Creating], g.pending[id := CreateRequest(session)],
          g.seen + [Created(id, session, imported)])
  }

  predicate LetsThrough(g: Guard, session: Uri) {
    session in g.sessions && g.sessions[session].Empty?
  }

  function Dispose(g: Guard, id: nat, session: Uri): Guard {
    if !LetsThrough(g, session) then g
    else Guard(g.sessions[session := Disposing], g.pending[id := DisposeRequest(session)], g.seen + [Disposed(id, session)])
  }

  function Respond(g: Guard, id: nat, ok: bool): Guard {
    var g1 := g.(seen := g.seen + [Responded(id, ok)]);
    if id !in g.pending then g1
    else
      var request := g.pending[id];
      var session := request.session;
      var pending := g.pending - {id};
      var state := if session in g.sessions then Some(g.sessions[session]) else None;
      match request
      case CreateRequest(_) =>
        if ok then g1.(pending := pending, sessions := if state == Some(Creating) then g.sessions[session := Empty] else g.sessions)
        else g1.(pending := pending, sessions := g.sessions - {session})
      case DisposeRequest(_) =>
        if ok then g1.(pending := pending, sessions := g.sessions - {session})
        else g1.(pending := pending, sessions := if state == Some(Disposing) then g.sessions[session := Empty] else g.sessions)
  }

  function Remove(g: Guard, session: Uri): Guard {
    g.(sessions := g.sessions - {session}, seen := g.seen + [Removed(session)])
  }

  datatype Step =
    | Action(channel: Uri)                       // a materialising action, incoming or accepted and echoed
    | CreateSession(id: nat, channel: Uri, imported: bool)
    | DisposeSession(id: nat, channel: Uri)
    | Response(id: nat, ok: bool)
    | SessionRemoved(channel: Uri)

  /** Outstanding request ids differ, and a session has at most one outstanding creation. */
  predicate Enabled(g: Guard, step: Step) {
    match step
    case CreateSession(id, channel, _) =>
      id !in g.pending
      && forall r :: r in g.pending && g.pending[r].CreateRequest? ==> Some(g.pending[r].session) != U.CanonicalSessionUri(channel)
    case DisposeSession(id, _) => id !in g.pending
    case Action(_) => true
    case Response(_, _) => true
    case SessionRemoved(_) => true
  }

  function Next(g: Guard, step: Step): Guard {
    match step
    case Action(channel) => MarkMaterialized(g, channel)
    case CreateSession(id, channel, imported) =>
      (match U.CanonicalSessionUri(channel) case None => g case Some(session) => Create(g, id, session, imported))
    case DisposeSession(id, channel) =>
      (match U.CanonicalSessionUri(channel) case None => g case Some(session) => Dispose(g, id, session))
    case Response(id, ok) => Respond(g, id, ok)
    case SessionRemoved(channel) =>
      (match U.CanonicalSessionUri(channel) case None => g case Some(session) => Remove(g, session))
  }

  predicate Trace(g: Guard, steps: seq<Step>)
    decreases |steps|
  {
    steps == [] || (Enabled(g, steps[0]) && Trace(Next(g, steps[0]), steps[1..]))
  }

  function Run(g: Guard, steps: seq<Step>): Guard
    decreases |steps|
  {
    if steps == [] then g else Run(Next(g, steps[0]), steps[1..])
  }

  // ── Drafts ────────────────────────────────────────────────────────────────

  /** Since event i nothing has touched, removed or created the session anew. */
  predicate UndisturbedSince(seen: seq<Event>, i: nat, session: Uri) {
    forall k :: i < k < |seen| ==>
      seen[k] != Touched(session) && seen[k] != Removed(session) && !(seen[k].Created? && seen[k].session == session)
  }

  predicate UnansweredUpTo(seen: seq<Event>, i: nat, end: nat, id: nat) {
    forall k :: i < k < end && k < |seen| ==> !(seen[k].Responded? && seen[k].id == id)
  }

  /** Event i created the session, without an import, and nothing has disturbed it since. */
  predicate CreatedAt(seen: seq<Event>, i: nat, id: nat, session: Uri) {
    i < |seen| && seen[i] == Created(id, session, false) && UndisturbedSince(seen, i, session)
  }

  predicate AnsweredAt(seen: seq<Event>, i: nat, j: nat, id: nat) {
    i < j < |seen| && seen[j] == Responded(id, true) && UnansweredUpTo(seen, i, j, id)
  }

  /** An unused draft of this connection: created here, not imported, the creation answered with success, and since
      then no materialising action, no removal and no new creation. */
  ghost predicate Draft(seen: seq<Event>, session: Uri) {
    exists i, j, id :: CreatedAt(seen, i, id, session) && AnsweredAt(seen, i, j, id)
  }

  /** Event k is a disposal of the session that was let through and has had no answer before event m. */
  predicate DisposesUpTo(seen: seq<Event>, k: nat, m: nat, id: nat, session: Uri) {
    k < m <= |seen| && seen[k] == Disposed(id, session) && UnansweredUpTo(seen, k, m, id)
  }

  /** Event m answers such a disposal. */
  ghost predicate SettlesAt(seen: seq<Event>, m: nat, session: Uri, ok: bool) {
    m < |seen| && seen[m].Responded? && seen[m].ok == ok && exists k :: DisposesUpTo(seen, k, m, seen[m].id, session)
  }

  /** Since event i no disposal of the session has succeeded. */
  ghost predicate Undeleted(seen: seq<Event>, i: nat, session: Uri) {
    forall m :: i < m < |seen| ==> !SettlesAt(seen, m, session, true)
  }

  /** Some disposal of the session has failed since event k. */
  ghost predicate FailedSince(seen: seq<Event>, k: nat, session: Uri) {
    exists m :: k < m < |seen| && SettlesAt(seen, m, session, false)
  }

  /** Every disposal of the session let through since event j has been followed by the failure of one. */
  ghost predicate Idle(seen: seq<Event>, j: nat, session: Uri) {
    forall k :: j < k < |seen| && seen[k].Disposed? && seen[k].session == session ==> FailedSince(seen, k, session)
  }

  /** The creation is still unanswered. */
  ghost predicate BeingCreated(seen: seq<Event>, session: Uri) {
    exists i, id :: CreatedAt(seen, i, id, session) && UnansweredUpTo(seen, i, |seen|, id) && Undeleted(seen, i, session)
  }

  /** An unused draft that no disposal has taken away, with none under way. */
  ghost predicate Disposable(seen: seq<Event>, session: Uri) {
    exists i, j, id ::
      CreatedAt(seen, i, id, session) && AnsweredAt(seen, i, j, id) && Undeleted(seen, i, session) && Idle(seen, j, session)
  }

  ghost predicate BeingDisposed(seen: seq<Event>, session: Uri) {
    exists i, j, id ::
      CreatedAt(seen, i, id, session) && AnsweredAt(seen, i, j, id) && Undeleted(seen, i, session) && !Idle(seen, j, session)
  }

  /** What is tracked of a session says where it stands. */
  ghost predicate Tells(seen: seq<Event>, session: Uri, state: Option<Tracked>) {
    && (state == Some(Creating) <==> BeingCreated(seen, session))
    && (state == Some(Empty) <==> Disposable(seen, session))
    && (state == Some(Disposing) <==> BeingDisposed(seen, session))
  }

  function StateOf(g: Guard, session: Uri): Option<Tracked> {
    if session in g.sessions then Some(g.sessions[session]) else None
  }

  /** Event k is the creation that request id asks for, the session's latest and unanswered. */
  predicate CreatesNow(seen: seq<Event>, k: nat, id: nat, session: Uri) {
    && k < |seen| && seen[k].Created? && seen[k].id == id && seen[k].session == session && UnansweredUpTo(seen, k, |seen|, id)
    && forall l :: k < l < |seen| ==> !(seen[l].Created? && seen[l].session == session)
  }

  /** The pending requests are the unanswered creations and disposals. */
  ghost predicate PendingExact(g: Guard) {
    && (forall id :: id in g.pending && g.pending[id].CreateRequest? ==> exists k :: CreatesNow(g.seen, k, id, g.pending[id].session))
    && (forall id :: id in g.pending && g.pending[id].DisposeRequest? ==> exists k :: DisposesUpTo(g.seen, k, |g.seen|, id, g.pending[id].session))
    && (forall k, id, session :: DisposesUpTo(g.seen, k, |g.seen|, id, session) ==> id in g.pending && g.pending[id] == DisposeRequest(session))
    && (forall k, id, session :: CreatedAt(g.seen, k, id, session) && UnansweredUpTo(g.seen, k, |g.seen|, id) ==>
          id in g.pending && g.pending[id] == CreateRequest(session))
  }

  ghost predicate Inv(g: Guard) {
    && PendingExact(g)
    && forall session :: Tells(g.seen, session, StateOf(g, session))
  }

  // ── One event more ────────────────────────────────────────────────────────

  /** What one more event has to be, to leave a session's creation or draft as it was. */
  predicate Spares(e: Event, session: Uri) {
    e != Touched(session) && e != Removed(session) && !(e.Created? && e.session == session)
  }

  lemma UnansweredSnoc(seen: seq<Event>, e: Event, i: nat, end: nat, id: nat)
    ensures end <= |seen| ==> (UnansweredUpTo(seen + [e], i, end, id) <==> UnansweredUpTo(seen, i, end, id))
    ensures i < |seen| ==> (UnansweredUpTo(seen + [e], i, |seen| + 1, id) <==> UnansweredUpTo(seen, i, |seen|, id) && !(e.Responded? && e.id == id))
  {
    assert forall k :: 0 <= k < |seen| ==> (seen + [e])[k] == seen[k];
    assert (seen + [e])[|seen|] == e;
  }

  lemma CreatedSnoc(seen: seq<Event>, e: Event, i: nat, id: nat, session: Uri)
    ensures i < |seen| ==> (CreatedAt(seen + [e], i, id, session) <==> CreatedAt(seen, i, id, session) && Spares(e, session))
    ensures i >= |seen| ==> (CreatedAt(seen + [e], i, id, session) <==> i == |seen| && e == Created(id, session, false))
  {
    assert forall k :: 0 <= k < |seen| ==> (seen + [e])[k] == seen[k];
    assert (seen + [e])[|seen|] == e;
  }

  lemma AnsweredSnoc(seen: seq<Event>, e: Event, i: nat, j: nat, id: nat)
    ensures j < |seen| ==> (AnsweredAt(seen + [e], i, j, id) <==> AnsweredAt(seen, i, j, id))
    ensures j >= |seen| ==>
      (AnsweredAt(seen + [e], i, j, id) <==> i < j == |seen| && e == Responded(id, true) && UnansweredUpTo(seen, i, |seen|, id))
  {
    UnansweredSnoc(seen, e, i, j, id);
    assert j < |seen| ==> (seen + [e])[j] == seen[j];
    assert (seen + [e])[|seen|] == e;
  }

  lemma SettlesSnoc(seen: seq<Event>, e: Event, m: nat, session: Uri, ok: bool)
    ensures m < |seen| ==> (SettlesAt(seen + [e], m, session, ok) <==> SettlesAt(seen, m, session, ok))
    ensures SettlesAt(seen + [e], |seen|, session, ok) <==>
              e.Responded? && e.ok == ok && exists k :: DisposesUpTo(seen, k, |seen|, e.id, session)
  {
    forall k: nat, end: nat, id | end <= |seen|
      ensures DisposesUpTo(seen + [e], k, end, id, session) <==> DisposesUpTo(seen, k, end, id, session)
    {
      UnansweredSnoc(seen, e, k, end, id);
      assert k < |seen| ==> (seen + [e])[k] == seen[k];
    }
    assert m < |seen| ==> (seen + [e])[m] == seen[m];
    assert (seen + [e])[|seen|] == e;
  }

  /** The event is the answer that ends a disposal of the session in this way. */
  ghost predicate Ends(seen: seq<Event>, e: Event, session: Uri, ok: bool) {
    e.Responded? && e.ok == ok && exists k :: DisposesUpTo(seen, k, |seen|, e.id, session)
  }

  lemma UndeletedSnoc(seen: seq<Event>, e: Event, i: nat, session: Uri)
    requires i < |seen|
    ensures Undeleted(seen + [e], i, session) <==> Undeleted(seen, i, session) && !Ends(seen, e, session, true)
  {
    forall m: nat | m < |seen| ensures SettlesAt(seen + [e], m, session, true) <==> SettlesAt(seen, m, session, true) {
      SettlesSnoc(seen, e, m, session, true);
    }
    SettlesSnoc(seen, e, |seen|, session, true);
  }

  lemma FailedSnoc(seen: seq<Event>, e: Event, k: nat, session: Uri)
    requires k < |seen|
    ensures FailedSince(seen + [e], k, session) <==> FailedSince(seen, k, session) || Ends(seen, e, session, false)
  {
    forall m: nat | m < |seen| ensures SettlesAt(seen + [e], m, session, false) <==> SettlesAt(seen, m, session, false) {
      SettlesSnoc(seen, e, m, session, false);
    }
    SettlesSnoc(seen, e, |seen|, session, false);
  }

  lemma IdleSnoc(seen: seq<Event>, e: Event, j: nat, session: Uri)
    requires j < |seen|
    ensures Idle(seen + [e], j, session) <==>
              !(e.Disposed? && e.session == session) && (Idle(seen, j, session) || Ends(seen, e, session, false))
  {
    var after := seen + [e];
    assert after[|seen|] == e && !FailedSince(after, |seen|, session);
    forall k: nat | k < |seen|
      ensures after[k] == seen[k] && (FailedSince(after, k, session) <==> FailedSince(seen, k, session) || Ends(seen, e, session, false))
    {
      FailedSnoc(seen, e, k, session);
    }
  }

  lemma IdleAtEnd(seen: seq<Event>, e: Event, session: Uri)
    ensures Idle(seen + [e], |seen|, session)
  {
  }

  /** Nothing stands for a session that was just touched, removed or created by an import. */
  lemma DisturbedTells(seen: seq<Event>, e: Event, session: Uri, state: Option<Tracked>)
    requires !Spares(e, session) && (e.Created? ==> e.imported) && (state.None? || state == Some(Materialized))
    ensures Tells(seen + [e], session, state)
  {
    forall i: nat, id ensures !CreatedAt(seen + [e], i, id, session) { CreatedSnoc(seen, e, i, id, session); }
  }

  lemma CreatedTells(seen: seq<Event>, id: nat, session: Uri)
    ensures Tells(seen + [Created(id, session, false)], session, Some(Creating))
  {
    var e := Created(id, session, false);
    var after := seen + [e];
    forall i: nat, r ensures CreatedAt(after, i, r, session) <==> i == |seen| && r == id { CreatedSnoc(seen, e, i, r, session); }
    assert UnansweredUpTo(after, |seen|, |after|, id) && Undeleted(after, |seen|, session);
    forall j: nat ensures !AnsweredAt(after, |seen|, j, id) { AnsweredSnoc(seen, e, |seen|, j, id); }
  }

  /** The event neither disturbs the session nor disposes of it nor answers a request about it. */
  ghost predicate Unconcerned(seen: seq<Event>, e: Event, session: Uri) {
    && Spares(e, session) && !(e.Disposed? && e.session == session)
    && !Ends(seen, e, session, true) && !Ends(seen, e, session, false)
    && (e.Responded? ==> forall i :: CreatedAt(seen, i, e.id, session) ==> !UnansweredUpTo(seen, i, |seen|, e.id))
  }

  /** An event that neither disturbs a session nor deletes it nor answers its creation leaves it being created or not. */
  lemma AnswerLeavesCreation(seen: seq<Event>, e: Event, session: Uri)
    requires Spares(e, session) && !Ends(seen, e, session, true)
    requires e.Responded? ==> forall i :: CreatedAt(seen, i, e.id, session) ==> !UnansweredUpTo(seen, i, |seen|, e.id)
    ensures BeingCreated(seen + [e], session) <==> BeingCreated(seen, session)
  {
    var after := seen + [e];
    forall i: nat, id
      ensures CreatedAt(after, i, id, session) && UnansweredUpTo(after, i, |after|, id) && Undeleted(after, i, session)
         <==> CreatedAt(seen, i, id, session) && UnansweredUpTo(seen, i, |seen|, id) && Undeleted(seen, i, session)
    {
      CreatedSnoc(seen, e, i, id, session);
      UnansweredSnoc(seen, e, i, |seen|, id);
      if i < |seen| { UndeletedSnoc(seen, e, i, session); }
    }
  }

  lemma UnconcernedDraft(seen: seq<Event>, e: Event, session: Uri)
    requires Unconcerned(seen, e, session)
    ensures Disposable(seen + [e], session) <==> Disposable(seen, session)
    ensures BeingDisposed(seen + [e], session) <==> BeingDisposed(seen, session)
  {
    var after := seen + [e];
    forall i: nat, j: nat, id
      ensures CreatedAt(after, i, id, session) && AnsweredAt(after, i, j, id) && Undeleted(after, i, session)
         <==> CreatedAt(seen, i, id, session) && AnsweredAt(seen, i, j, id) && Undeleted(seen, i, session)
      ensures AnsweredAt(seen, i, j, id) ==> (Idle(after, j, session) <==> Idle(seen, j, session))
    {
      CreatedSnoc(seen, e, i, id, session);
      AnsweredSnoc(seen, e, i, j, id);
      if i < |seen| { UndeletedSnoc(seen, e, i, session); }
      if j < |seen| { IdleSnoc(seen, e, j, session); }
    }
  }

  lemma UnconcernedTells(seen: seq<Event>, e: Event, session: Uri, state: Option<Tracked>)
    requires Tells(seen, session, state) && Unconcerned(seen, e, session)
    ensures Tells(seen + [e], session, state)
  {
    AnswerLeavesCreation(seen, e, session);
    UnconcernedDraft(seen, e, session);
  }

  /** A disposal let through: the draft is being disposed of. */
  lemma DisposedTells(seen: seq<Event>, id: nat, session: Uri)
    requires Tells(seen, session, Some(Empty))
    ensures Tells(seen + [Disposed(id, session)], session, Some(Disposing))
  {
    var e := Disposed(id, session);
    var after := seen + [e];
    forall i: nat, j: nat, r
      ensures CreatedAt(after, i, r, session) <==> CreatedAt(seen, i, r, session)
      ensures AnsweredAt(after, i, j, r) <==> AnsweredAt(seen, i, j, r)
      ensures i < |seen| ==> (Undeleted(after, i, session) <==> Undeleted(seen, i, session))
      ensures i < |seen| ==> (UnansweredUpTo(after, i, |after|, r) <==> UnansweredUpTo(seen, i, |seen|, r))
      ensures j < |seen| ==> !Idle(after, j, session)
    {
      CreatedSnoc(seen, e, i, r, session);
      AnsweredSnoc(seen, e, i, j, r);
      UnansweredSnoc(seen, e, i, |seen|, r);
      if i < |seen| { UndeletedSnoc(seen, e, i, session); }
      if j < |seen| { IdleSnoc(seen, e, j, session); }
    }
    assert !BeingCreated(after, session) by { assert !BeingCreated(seen, session); }
  }

  /** A disposal of the session succeeds: nothing stands for it any more. */
  lemma DeletedTells(seen: seq<Event>, e: Event, session: Uri)
    requires Ends(seen, e, session, true)
    ensures Tells(seen + [e], session, None)
  {
    var after := seen + [e];
    forall i: nat, id | CreatedAt(after, i, id, session) ensures !Undeleted(after, i, session) {
      CreatedSnoc(seen, e, i, id, session);
      UndeletedSnoc(seen, e, i, session);
    }
  }

  /** A disposal of the session fails: a draft being disposed of is an unused draft again. */
  lemma RestoredTells(seen: seq<Event>, e: Event, session: Uri, state: Option<Tracked>)
    requires Tells(seen, session, state) && Ends(seen, e, session, false) && !Ends(seen, e, session, true)
    requires forall i :: CreatedAt(seen, i, e.id, session) ==> !UnansweredUpTo(seen, i, |seen|, e.id)
    ensures Tells(seen + [e], session, if state == Some(Disposing) then Some(Empty) else state)
  {
    var after := seen + [e];
    AnswerLeavesCreation(seen, e, session);
    forall i: nat, j: nat, id
      ensures CreatedAt(after, i, id, session) && AnsweredAt(after, i, j, id) && Undeleted(after, i, session)
         <==> CreatedAt(seen, i, id, session) && AnsweredAt(seen, i, j, id) && Undeleted(seen, i, session)
      ensures AnsweredAt(seen, i, j, id) ==> Idle(after, j, session)
    {
      CreatedSnoc(seen, e, i, id, session);
      AnsweredSnoc(seen, e, i, j, id);
      if i < |seen| { UndeletedSnoc(seen, e, i, session); }
      if j < |seen| { IdleSnoc(seen, e, j, session); }
    }
    assert Disposable(after, session) <==> Disposable(seen, session) || BeingDisposed(seen, session);
  }

  /** The latest creation is the only one whose session can be undisturbed. */
  lemma OnlyCreation(seen: seq<Event>, k: nat, id: nat, session: Uri)
    requires CreatesNow(seen, k, id, session)
    ensures forall i, r :: CreatedAt(seen, i, r, session) ==> i == k && r == id
  {
  }

  /** The creation fails: nothing stands for the session. */
  lemma FailedTells(seen: seq<Event>, k: nat, id: nat, session: Uri)
    requires CreatesNow(seen, k, id, session)
    ensures Tells(seen + [Responded(id, false)], session, None)
  {
    var e := Responded(id, false);
    var after := seen + [e];
    OnlyCreation(seen, k, id, session);
    forall i: nat, r | CreatedAt(after, i, r, session) ensures !UnansweredUpTo(after, i, |after|, r) {
      CreatedSnoc(seen, e, i, r, session);
      UnansweredSnoc(seen, e, i, |seen|, r);
    }
    forall i: nat, j: nat, r | CreatedAt(after, i, r, session) ensures !AnsweredAt(after, i, j, r) {
      CreatedSnoc(seen, e, i, r, session);
      AnsweredSnoc(seen, e, i, j, r);
    }
  }

  /** The creation succeeds: what was being created is an unused draft. */
  lemma AnsweredTells(seen: seq<Event>, k: nat, id: nat, session: Uri, state: Option<Tracked>)
    requires Tells(seen, session, state) && CreatesNow(seen, k, id, session) && !Ends(seen, Responded(id, true), session, true)
    ensures Tells(seen + [Responded(id, true)], session, if state == Some(Creating) then Some(Empty) else state)
  {
    var e := Responded(id, true);
    var after := seen + [e];
    OnlyCreation(seen, k, id, session);
    forall i: nat, j: nat, r
      ensures CreatedAt(after, i, r, session) <==> CreatedAt(seen, i, r, session)
      ensures CreatedAt(seen, i, r, session) ==> !AnsweredAt(seen, i, j, r) && !UnansweredUpTo(after, i, |after|, r)
      ensures CreatedAt(seen, i, r, session) ==> (AnsweredAt(after, i, j, r) <==> j == |seen|)
      ensures i < |seen| ==> (Undeleted(after, i, session) <==> Undeleted(seen, i, session))
    {
      CreatedSnoc(seen, e, i, r, session);
      AnsweredSnoc(seen, e, i, j, r);
      UnansweredSnoc(seen, e, i, |seen|, r);
      if i < |seen| { UndeletedSnoc(seen, e, i, session); }
    }
    IdleAtEnd(seen, e, session);
    assert Disposable(after, session) <==> BeingCreated(seen, session) by {
      if BeingCreated(seen, session) {
        var i, r :| CreatedAt(seen, i, r, session) && UnansweredUpTo(seen, i, |seen|, r) && Undeleted(seen, i, session);
        assert CreatedAt(after, i, r, session) && AnsweredAt(after, i, |seen|, r) && Undeleted(after, i, session);
      }
    }
  }

  // ── Every message keeps what is tracked true ──────────────────────────────

  /** An event that answers nothing, with its request pending if it makes one. */
  lemma PendingSnoc(g: Guard, h: Guard, e: Event)
    requires PendingExact(g) && h.seen == g.seen + [e] && !e.Responded?
    requires e.Created? ==> e.id !in g.pending && h.pending == g.pending[e.id := CreateRequest(e.session)]
    requires e.Disposed? ==> e.id !in g.pending && h.pending == g.pending[e.id := DisposeRequest(e.session)]
    requires !e.Created? && !e.Disposed? ==> h.pending == g.pending
    requires e.Created? ==> forall r :: r in g.pending && g.pending[r].CreateRequest? ==> g.pending[r].session != e.session
    ensures PendingExact(h)
  {
    PendingCreations(g, h, e);
    forall id | id in h.pending && h.pending[id].DisposeRequest?
      ensures exists k :: DisposesUpTo(h.seen, k, |h.seen|, id, h.pending[id].session)
    {
      if e.Disposed? && id == e.id {
        assert h.seen[|g.seen|] == e && DisposesUpTo(h.seen, |g.seen|, |h.seen|, id, e.session);
      } else {
        var k: nat :| DisposesUpTo(g.seen, k, |g.seen|, id, g.pending[id].session);
        UnansweredSnoc(g.seen, e, k, |g.seen|, id);
        assert DisposesUpTo(h.seen, k, |h.seen|, id, h.pending[id].session);
      }
    }
    forall k: nat, id, session | DisposesUpTo(h.seen, k, |h.seen|, id, session) ensures id in h.pending && h.pending[id] == DisposeRequest(session) {
      UnansweredSnoc(g.seen, e, k, |g.seen|, id);
      if k < |g.seen| { assert h.seen[k] == g.seen[k] && DisposesUpTo(g.seen, k, |g.seen|, id, session); }
    }
    forall k: nat, id, session | CreatedAt(h.seen, k, id, session) && UnansweredUpTo(h.seen, k, |h.seen|, id)
      ensures id in h.pending && h.pending[id] == CreateRequest(session)
    {
      CreatedSnoc(g.seen, e, k, id, session);
      UnansweredSnoc(g.seen, e, k, |g.seen|, id);
    }
  }

  lemma PendingCreations(g: Guard, h: Guard, e: Event)
    requires PendingExact(g) && h.seen == g.seen + [e] && !e.Responded?
    requires e.Created? ==> e.id !in g.pending && h.pending == g.pending[e.id := CreateRequest(e.session)]
    requires e.Disposed? ==> e.id !in g.pending && h.pending == g.pending[e.id := DisposeRequest(e.session)]
    requires !e.Created? && !e.Disposed? ==> h.pending == g.pending
    requires e.Created? ==> forall r :: r in g.pending && g.pending[r].CreateRequest? ==> g.pending[r].session != e.session
    ensures forall id :: id in h.pending && h.pending[id].CreateRequest? ==> exists k :: CreatesNow(h.seen, k, id, h.pending[id].session)
  {
    forall id | id in h.pending && h.pending[id].CreateRequest? ensures exists k :: CreatesNow(h.seen, k, id, h.pending[id].session) {
      if e.Created? && id == e.id {
        assert h.seen[|g.seen|] == e && CreatesNow(h.seen, |g.seen|, id, e.session);
      } else {
        var k: nat :| CreatesNow(g.seen, k, id, g.pending[id].session);
        UnansweredSnoc(g.seen, e, k, |g.seen|, id);
        assert h.seen[k] == g.seen[k] && CreatesNow(h.seen, k, id, h.pending[id].session);
      }
    }
  }

  /** An answer takes its request out. */
  lemma PendingAnswered(g: Guard, h: Guard, e: Event)
    requires PendingExact(g) && h.seen == g.seen + [e] && e.Responded? && h.pending == g.pending - {e.id}
    ensures PendingExact(h)
  {
    forall id | id in h.pending && h.pending[id].CreateRequest? ensures exists k :: CreatesNow(h.seen, k, id, h.pending[id].session) {
      var k: nat :| CreatesNow(g.seen, k, id, g.pending[id].session);
      UnansweredSnoc(g.seen, e, k, |g.seen|, id);
      assert h.seen[k] == g.seen[k] && CreatesNow(h.seen, k, id, h.pending[id].session);
    }
    forall id | id in h.pending && h.pending[id].DisposeRequest?
      ensures exists k :: DisposesUpTo(h.seen, k, |h.seen|, id, h.pending[id].session)
    {
      var k: nat :| DisposesUpTo(g.seen, k, |g.seen|, id, g.pending[id].session);
      UnansweredSnoc(g.seen, e, k, |g.seen|, id);
      assert DisposesUpTo(h.seen, k, |h.seen|, id, h.pending[id].session);
    }
    forall k: nat, id, session | DisposesUpTo(h.seen, k, |h.seen|, id, session) ensures id in h.pending && h.pending[id] == DisposeRequest(session) {
      UnansweredSnoc(g.seen, e, k, |g.seen|, id);
      assert k < |g.seen| && h.seen[k] == g.seen[k] && DisposesUpTo(g.seen, k, |g.seen|, id, session);
    }
    forall k: nat, id, session | CreatedAt(h.seen, k, id, session) && UnansweredUpTo(h.seen, k, |h.seen|, id)
      ensures id in h.pending && h.pending[id] == CreateRequest(session)
    {
      CreatedSnoc(g.seen, e, k, id, session);
      UnansweredSnoc(g.seen, e, k, |g.seen|, id);
    }
  }

  /** An event about one session leaves what is tracked of every other true. */
  lemma OthersTell(g: Guard, e: Event, session: Uri)
    requires Inv(g) && !e.Responded? && Spares(e, session) && !(e.Disposed? && e.session == session)
    ensures Tells(g.seen + [e], session, StateOf(g, session))
  {
    UnconcernedTells(g.seen, e, session, StateOf(g, session));
  }

  lemma MarkKeeps(g: Guard, channel: Uri)
    requires Inv(g)
    ensures Inv(MarkMaterialized(g, channel))
  {
    var h := MarkMaterialized(g, channel);
    if U.OwningSessionUri(channel).Some? {
      var touched := U.OwningSessionUri(channel).value;
      PendingSnoc(g, h, Touched(touched));
      forall session ensures Tells(h.seen, session, StateOf(h, session)) {
        if session == touched { DisturbedTells(g.seen, Touched(touched), session, StateOf(h, session)); }
        else { OthersTell(g, Touched(touched), session); }
      }
    }
  }

  lemma RemoveKeeps(g: Guard, removed: Uri)
    requires Inv(g)
    ensures Inv(Remove(g, removed))
  {
    var h := Remove(g, removed);
    PendingSnoc(g, h, Removed(removed));
    forall session ensures Tells(h.seen, session, StateOf(h, session)) {
      if session == removed { DisturbedTells(g.seen, Removed(removed), session, None); }
      else { OthersTell(g, Removed(removed), session); }
    }
  }

  lemma CreateKeeps(g: Guard, id: nat, created: Uri, imported: bool)
    requires Inv(g) && id !in g.pending
    requires forall r :: r in g.pending && g.pending[r].CreateRequest? ==> g.pending[r].session != created
    ensures Inv(Create(g, id, created, imported))
  {
    var h, e := Create(g, id, created, imported), Created(id, created, imported);
    PendingSnoc(g, h, e);
    forall session ensures Tells(h.seen, session, StateOf(h, session)) {
      if session != created { OthersTell(g, e, session); }
      else if imported { DisturbedTells(g.seen, e, session, Some(Materialized)); }
      else { CreatedTells(g.seen, id, session); }
    }
  }

  lemma DisposeKeeps(g: Guard, id: nat, disposed: Uri)
    requires Inv(g) && id !in g.pending
    ensures Inv(Dispose(g, id, disposed))
  {
    if LetsThrough(g, disposed) {
      var h, e := Dispose(g, id, disposed), Disposed(id, disposed);
      PendingSnoc(g, h, e);
      forall session ensures Tells(h.seen, session, StateOf(h, session)) {
        if session == disposed {
          assert Tells(g.seen, session, Some(Empty)) by { assert StateOf(g, session) == Some(Empty); }
          DisposedTells(g.seen, id, session);
        } else {
          OthersTell(g, e, session);
        }
      }
    }
  }

  /** An answer to a request about another session, or to none that is pending, does not concern this one. */
  lemma AnswerElsewhere(g: Guard, e: Event, session: Uri)
    requires Inv(g) && e.Responded? && (e.id in g.pending ==> g.pending[e.id].session != session)
    ensures Tells(g.seen + [e], session, StateOf(g, session))
  {
    UnconcernedTells(g.seen, e, session, StateOf(g, session));
  }

  lemma CreationAnswered(g: Guard, id: nat, ok: bool, session: Uri)
    requires Inv(g) && id in g.pending && g.pending[id] == CreateRequest(session)
    ensures Tells(g.seen + [Responded(id, ok)], session, StateOf(Respond(g, id, ok), session))
  {
    var k: nat :| CreatesNow(g.seen, k, id, session);
    if ok {
      assert !Ends(g.seen, Responded(id, true), session, true);
      AnsweredTells(g.seen, k, id, session, StateOf(g, session));
    } else {
      FailedTells(g.seen, k, id, session);
    }
  }

  lemma DisposalAnswered(g: Guard, id: nat, ok: bool, session: Uri)
    requires Inv(g) && id in g.pending && g.pending[id] == DisposeRequest(session)
    ensures Tells(g.seen + [Responded(id, ok)], session, StateOf(Respond(g, id, ok), session))
  {
    assert Ends(g.seen, Responded(id, ok), session, ok);
    if ok { DeletedTells(g.seen, Responded(id, ok), session); }
    else { RestoredTells(g.seen, Responded(id, ok), session, StateOf(g, session)); }
  }

  /** An answer settles the session its request named, and leaves every other session as it was. */
  lemma RespondKeeps(g: Guard, id: nat, ok: bool)
    requires Inv(g)
    ensures Inv(Respond(g, id, ok))
  {
    var h, e := Respond(g, id, ok), Responded(id, ok);
    assert h.seen == g.seen + [e] && h.pending == g.pending - {id};
    PendingAnswered(g, h, e);
    forall session ensures Tells(h.seen, session, StateOf(h, session)) {
      if id !in g.pending || g.pending[id].session != session {
        AnswerElsewhere(g, e, session);
        assert StateOf(h, session) == StateOf(g, session);
      } else if g.pending[id].CreateRequest? {
        CreationAnswered(g, id, ok, session);
      } else {
        DisposalAnswered(g, id, ok, session);
      }
    }
  }

  lemma StepKeeps(g: Guard, step: Step)
    requires Inv(g) && Enabled(g, step)
    ensures Inv(Next(g, step))
  {
    match step
    case Action(channel) => MarkKeeps(g, channel);
    case CreateSession(id, channel, imported) =>
      if U.CanonicalSessionUri(channel).Some? { CreateKeeps(g, id, U.CanonicalSessionUri(channel).value, imported); }
    case DisposeSession(id, channel) =>
      if U.CanonicalSessionUri(channel).Some? { DisposeKeeps(g, id, U.CanonicalSessionUri(channel).value); }
    case Response(id, ok) => RespondKeeps(g, id, ok);
    case SessionRemoved(channel) =>
      if U.CanonicalSessionUri(channel).Some? { RemoveKeeps(g, U.CanonicalSessionUri(channel).value); }
  }

  lemma {:induction false} RunKeeps(g: Guard, steps: seq<Step>)
    requires Inv(g) && Trace(g, steps)
    ensures Inv(Run(g, steps))
    decreases |steps|
  {
    if steps != [] {
      StepKeeps(g, steps[0]);
      RunKeeps(Next(g, steps[0]), steps[1..]);
    }
  }

  lemma FreshTells()
    ensures Inv(Fresh)
  {
  }

  /** On every run the disposals let through are exactly those of unused drafts of this connection that no disposal has
      taken away, and for which none is under way. */
  lemma LetsThroughIff(steps: seq<Step>, session: Uri)
    requires Trace(Fresh, steps)
    ensures var g := Run(Fresh, steps); LetsThrough(g, session) <==> Disposable(g.seen, session)
  {
    FreshTells();
    RunKeeps(Fresh, steps);
    var g := Run(Fresh, steps);
    assert Tells(g.seen, session, StateOf(g, session));
  }

  /** In particular only unused drafts are disposed of. */
  lemma OnlyDraftsAreDisposed(steps: seq<Step>, session: Uri)
    requires Trace(Fresh, steps) && LetsThrough(Run(Fresh, steps), session)
    ensures Draft(Run(Fresh, steps).seen, session)
  {
    LetsThroughIff(steps, session);
  }

  /** The proviso is needed: with two creations of one session outstanding, the success of the first, an import, makes
      the second look complete, and the disposal of an imported session is let through. */
  lemma TwoCreationsDefeatTheGuard(channel: Uri, session: Uri)
    requires U.CanonicalSessionUri(channel) == Some(session)
    ensures var g := Run(Fresh, [CreateSession(1, channel, true), CreateSession(2, channel, false), Response(1, true)]);
            LetsThrough(g, session) && !Draft(g.seen, session)
  {
    var g1 := Create(Fresh, 1, session, true);
    var g2 := Create(g1, 2, session, false);
    var g3 := Respond(g2, 1, true);
    var steps := [CreateSession(1, channel, true), CreateSession(2, channel, false), Response(1, true)];
    assert steps[1..] == [CreateSession(2, channel, false), Response(1, true)] && steps[1..][1..] == [Response(1, true)];
    assert [Response(1, true)][1..] == [];
    assert Run(Fresh, steps) == Run(g1, steps[1..]);
    assert Run(g1, steps[1..]) == Run(g2, [Response(1, true)]);
    assert Run(g2, [Response(1, true)]) == g3;
    assert g3.seen == [Created(1, session, true), Created(2, session, false), Responded(1, true)];
  }

  // ── Several creations at once ─────────────────────────────────────────────

  /** Outstanding request ids differ; nothing is asked of how many creations of a session are outstanding. */
  predicate DistinctRequest(g: Guard, step: Step) {
    (step.CreateSession? || step.DisposeSession?) ==> step.id !in g.pending
  }

  predicate DistinctRequests(g: Guard, steps: seq<Step>)
    decreases |steps|
  {
    steps == [] || (DistinctRequest(g, steps[0]) && DistinctRequests(Next(g, steps[0]), steps[1..]))
  }

  /** Request id is the session's latest creation. */
  predicate Newest(seen: seq<Event>, id: nat, session: Uri) {
    exists k :: 0 <= k < |seen| && seen[k].Created? && seen[k].id == id && seen[k].session == session
                && forall l :: k < l < |seen| ==> !(seen[l].Created? && seen[l].session == session)
  }

  /** The step answers with success a creation that a newer one, still being created, has overtaken. */
  predicate Overtaken(g: Guard, step: Step, session: Uri) {
    && step.Response? && step.ok && step.id in g.pending && g.pending[step.id] == CreateRequest(session)
    && StateOf(g, session) == Some(Creating) && !Newest(g.seen, step.id, session)
  }

  predicate NeverOvertaken(g: Guard, steps: seq<Step>, session: Uri)
    decreases |steps|
  {
    steps == [] || (!Overtaken(g, steps[0], session) && NeverOvertaken(Next(g, steps[0]), steps[1..], session))
  }

  ghost predicate Safe(g: Guard, session: Uri) {
    LetsThrough(g, session) ==> Draft(g.seen, session)
  }

  /** At no point of the run is anything but a draft let through. */
  ghost predicate AlwaysSafe(g: Guard, steps: seq<Step>, session: Uri)
    decreases |steps|
  {
    Safe(g, session) && (steps == [] || AlwaysSafe(Next(g, steps[0]), steps[1..], session))
  }

  /** The session's latest creation, which nothing has disturbed, is outstanding as request id. */
  predicate Awaited(g: Guard, k: nat, id: nat, session: Uri) {
    && CreatedAt(g.seen, k, id, session) && UnansweredUpTo(g.seen, k, |g.seen|, id)
    && id in g.pending && g.pending[id] == CreateRequest(session)
  }

  ghost predicate Sound(g: Guard, session: Uri) {
    && (StateOf(g, session) == Some(Creating) ==> exists k, id :: Awaited(g, k, id, session))
    && (StateOf(g, session) == Some(Empty) || StateOf(g, session) == Some(Disposing) ==> Draft(g.seen, session))
  }

  lemma DraftStays(seen: seq<Event>, e: Event, session: Uri)
    requires Draft(seen, session) && Spares(e, session)
    ensures Draft(seen + [e], session)
  {
    var i: nat, j: nat, id :| CreatedAt(seen, i, id, session) && AnsweredAt(seen, i, j, id);
    CreatedSnoc(seen, e, i, id, session);
    AnsweredSnoc(seen, e, i, j, id);
  }

  /** An event that neither disturbs the session nor answers its creation leaves it as sound as it was. */
  lemma SparedSound(g: Guard, h: Guard, e: Event, session: Uri)
    requires Sound(g, session) && h.seen == g.seen + [e] && Spares(e, session)
    requires StateOf(h, session) == StateOf(g, session)
          || (StateOf(g, session) == Some(Empty) && StateOf(h, session) == Some(Disposing))
          || (StateOf(g, session) == Some(Disposing) && StateOf(h, session) == Some(Empty))
    requires forall id :: id in g.pending && g.pending[id] == CreateRequest(session) ==>
      (id in h.pending && h.pending[id] == g.pending[id] && !(e.Responded? && e.id == id)) || StateOf(g, session) != Some(Creating)
    ensures Sound(h, session)
  {
    if StateOf(h, session) == Some(Creating) {
      var k: nat, id :| Awaited(g, k, id, session);
      CreatedSnoc(g.seen, e, k, id, session);
      UnansweredSnoc(g.seen, e, k, |g.seen|, id);
      assert Awaited(h, k, id, session);
    }
    if StateOf(h, session) == Some(Empty) || StateOf(h, session) == Some(Disposing) {
      DraftStays(g.seen, e, session);
    }
  }

  lemma CreateSound(g: Guard, id: nat, created: Uri, imported: bool, session: Uri)
    requires Sound(g, session) && id !in g.pending
    ensures Sound(Create(g, id, created, imported), session)
  {
    var h, e := Create(g, id, created, imported), Created(id, created, imported);
    if created != session {
      SparedSound(g, h, e, session);
    } else if !imported {
      CreatedSnoc(g.seen, e, |g.seen|, id, session);
      assert Awaited(h, |g.seen|, id, session);
    }
  }

  lemma DisposeSound(g: Guard, id: nat, disposed: Uri, session: Uri)
    requires Sound(g, session) && id !in g.pending
    ensures Sound(Dispose(g, id, disposed), session)
  {
    if LetsThrough(g, disposed) { SparedSound(g, Dispose(g, id, disposed), Disposed(id, disposed), session); }
  }

  /** The creation that is awaited is the newest, and the only newest. */
  lemma AwaitedIsNewest(g: Guard, k: nat, id: nat, session: Uri)
    requires Awaited(g, k, id, session)
    ensures forall r :: Newest(g.seen, r, session) <==> r == id
  {
    assert Newest(g.seen, id, session);
  }

  lemma RespondSound(g: Guard, id: nat, ok: bool, session: Uri)
    requires Sound(g, session) && !Overtaken(g, Response(id, ok), session)
    ensures Sound(Respond(g, id, ok), session)
  {
    var h, e := Respond(g, id, ok), Responded(id, ok);
    if id in g.pending && g.pending[id] == CreateRequest(session) && StateOf(g, session) == Some(Creating) {
      if ok {
        var k: nat, r :| Awaited(g, k, r, session);
        AwaitedIsNewest(g, k, r, session);
        CreatedSnoc(g.seen, e, k, id, session);
        AnsweredSnoc(g.seen, e, k, |g.seen|, id);
        assert CreatedAt(h.seen, k, id, session) && AnsweredAt(h.seen, k, |g.seen|, id);
      }
    } else if StateOf(h, session) != None {
      SparedSound(g, h, e, session);
    }
  }

  lemma StepSound(g: Guard, step: Step, session: Uri)
    requires Sound(g, session) && DistinctRequest(g, step) && !Overtaken(g, step, session)
    ensures Sound(Next(g, step), session)
  {
    match step
    case Action(channel) =>
      var touched := U.OwningSessionUri(channel);
      if touched.Some? && touched.value != session { SparedSound(g, Next(g, step), Touched(touched.value), session); }
    case CreateSession(id, channel, imported) =>
      if U.CanonicalSessionUri(channel).Some? { CreateSound(g, id, U.CanonicalSessionUri(channel).value, imported, session); }
    case DisposeSession(id, channel) =>
      if U.CanonicalSessionUri(channel).Some? { DisposeSound(g, id, U.CanonicalSessionUri(channel).value, session); }
    case Response(id, ok) => RespondSound(g, id, ok, session);
    case SessionRemoved(channel) =>
      var removed := U.CanonicalSessionUri(channel);
      if removed.Some? && removed.value != session { SparedSound(g, Next(g, step), Removed(removed.value), session); }
  }

  /** After such an answer the guard lets through a session whose creation has not been answered. */
  lemma OvertakenIsUnsafe(g: Guard, step: Step, session: Uri)
    requires Sound(g, session) && Overtaken(g, step, session)
    ensures !Safe(Next(g, step), session)
  {
    var k: nat, id :| Awaited(g, k, id, session);
    AwaitedIsNewest(g, k, id, session);
    var e := Responded(step.id, true);
    forall i: nat, j: nat, r | CreatedAt(g.seen + [e], i, r, session) ensures !AnsweredAt(g.seen + [e], i, j, r) {
      CreatedSnoc(g.seen, e, i, r, session);
      AnsweredSnoc(g.seen, e, i, j, r);
      assert i == k && r == id;
    }
  }

  lemma {:induction false} SafeIff(g: Guard, steps: seq<Step>, session: Uri)
    requires Sound(g, session) && DistinctRequests(g, steps)
    ensures AlwaysSafe(g, steps, session) <==> NeverOvertaken(g, steps, session)
    decreases |steps|
  {
    if steps != [] {
      if Overtaken(g, steps[0], session) {
        OvertakenIsUnsafe(g, steps[0], session);
      } else {
        StepSound(g, steps[0], session);
        SafeIff(Next(g, steps[0]), steps[1..], session);
      }
    }
  }

  /** However many creations of a session are outstanding at once: at every point of the run only drafts are let through
      exactly when no success answers a creation that a newer one, still being created, has overtaken. */
  lemma GuardIsSafeIff(steps: seq<Step>, session: Uri)
    requires DistinctRequests(Fresh, steps)
    ensures AlwaysSafe(Fresh, steps, session) <==> NeverOvertaken(Fresh, steps, session)
  {
    SafeIff(Fresh, steps, session);
  }
}

/** The guard in its own form, for canonical sessions already resolved by the connection. */
module SessionDisposalGuard {
  import opened Protocol
  import U = UriDialects
  import Spec = SessionDisposalGuardSpec

  class VscodeSessionDisposalGuard {
    var sessions: map<U.Uri, Spec.Tracked>
    var pendingRequests: map<nat, Spec.Request>
    ghost var seen: seq<Spec.Event>

    ghost function View(): Spec.Guard
      reads this
    {
      Spec.Guard(sessions, pendingRequests, seen)
    }

    constructor ()
      ensures View() == Spec.Fresh
    {
      sessions, pendingRequests, seen := map[], map[], [];
    }

    method MarkMaterialized(channel: U.Uri)
      modifies this
      ensures View() == Spec.MarkMaterialized(old(View()), channel)
    {
      var session := U.OwningSessionUri(channel);
      if session.None? {
        return;
      }
      seen := seen + [Spec.Touched(session.value)];
      if session.value in sessions {
        sessions := sessions[session.value := Spec.Materialized];
      }
    }

    method OnCreateSession(id: nat, channel: U.Uri, imported: bool)
      modifies this
      ensures View() == Spec.Next(old(View()), Spec.CreateSession(id, channel, imported))
    {
      var session := U.CanonicalSessionUri(channel);
      if session.None? {
        return;
      }
      sessions := sessions[session.value := if imported then Spec.Materialized else Spec.Creating];
      pendingRequests := pendingRequests[id := Spec.CreateRequest(session.value)];
      seen := seen + [Spec.Created(id, session.value, imported)];
    }

    /** Refuses the disposal of any session not known to be an unused draft. */
    method OnDisposeSession(id: nat, channel: U.Uri) returns (refused: bool)
      modifies this
      ensures View() == Spec.Next(old(View()), Spec.DisposeSession(id, channel))
      ensures refused <==> U.CanonicalSessionUri(channel).Some?
                           && !Spec.LetsThrough(old(View()), U.CanonicalSessionUri(channel).value)
    {
      var session := U.CanonicalSessionUri(channel);
      if session.None? {
        return false;
      }
      if session.value !in sessions || sessions[session.value] != Spec.Empty {
        return true;
      }
      sessions := sessions[session.value := Spec.Disposing];
      pendingRequests := pendingRequests[id := Spec.DisposeRequest(session.value)];
      seen := seen + [Spec.Disposed(id, session.value)];
      return false;
    }

    method ApplyResponse(id: nat, ok: bool)
      modifies this
      ensures View() == Spec.Respond(old(View()), id, ok)
    {
      seen := seen + [Spec.Responded(id, ok)];
      if id !in pendingRequests {
        return;
      }
      var pending := pendingRequests[id];
      pendingRequests := pendingRequests - {id};
      var session := pending.session;
      if pending.CreateRequest? {
        if ok {
          if session in sessions && sessions[session].Creating? {
            sessions := sessions[session := Spec.Empty];
          }
        } else {
          sessions := sessions - {session};
        }
        return;
      }
      if ok {
        sessions := sessions - {session};
      } else if session in sessions && sessions[session].Disposing? {
        sessions := sessions[session := Spec.Empty];
      }
    }
  }
}
