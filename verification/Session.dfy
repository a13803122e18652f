/** The administrator session: credentials in memory, renewed by one shared refresh request (RFC 6749, section 6). */
module Session {
  import opened Options

  /** A credential with the sign-in it descends from, which the code itself never looks at. */
  datatype Credential = Credential(text: string, lineage: nat)

  /** When the access token expires, in milliseconds; 0 when unknown. */
  datatype Expiry = Expiry(at: int, lineage: nat)

  type RequestId = nat

  /** A refresh in flight, or one that has settled and whose starter has not resumed yet. */
  datatype Refresh =
    | Pending(version: nat, refreshToken: Credential, base: Credential)
    | Settled(version: nat)

  datatype State = State(
    token: Option<Credential>,
    idToken: Option<Credential>,
    refreshToken: Option<Credential>,
    expiresAt: Expiry,
    refreshRequest: Option<RequestId>,
    version: nat,
    refreshes: map<RequestId, Refresh>,
    started: nat)

  /** What a sign-in or a successful refresh response carries. */
  datatype Grant = Grant(access: Option<string>, id: Option<string>, refresh: Option<string>, expiresIn: Option<int>)

  datatype Response = NetworkFailure | HttpStatus(code: int) | Renewed(grant: Grant, now: int)

  /** What a caller of accessTokenForRequest gets: a value at once, or the shared promise of a refresh. */
  datatype Answer = Now(token: Option<string>) | Await(request: RequestId)

  /** How a refresh promise settles. */
  datatype Outcome = Token(text: string) | NoToken | SessionExpired | TryAgain | InvalidResponse

  const INITIAL := State(None, None, None, Expiry(0, 0), None, 0, map[], 0)

  function Text(credential: Option<Credential>): Option<string> {
    if credential.Some? then Some(credential.value.text) else None
  }

  function Issue(text: Option<string>, lineage: nat): Option<Credential> {
    if text.Some? then Some(Credential(text.value, lineage)) else None
  }

  function ExpiryOf(expiresIn: Option<int>, now: int, lineage: nat): Expiry {
    if expiresIn.Some? && expiresIn.value != 0 then Expiry(now + expiresIn.value * 1000, lineage)
    else Expiry(0, lineage)
  }

  // ------------------------------------------------------------ specification

  /** A new sign-in starts a new epoch; its credentials descend from it. */
  function SignedIn(s: State, grant: Grant, now: int): State {
    var epoch := s.version + 1;
    s.(token := Issue(grant.access, epoch), idToken := Issue(grant.id, epoch),
       refreshToken := Issue(grant.refresh, epoch),
       expiresAt := ExpiryOf(grant.expiresIn, now, epoch), refreshRequest := None, version := epoch)
  }

  function SignedOut(s: State): State {
    s.(token := None, idToken := None, refreshToken := None, expiresAt := Expiry(0, s.version + 1),
       refreshRequest := None, version := s.version + 1)
  }

  predicate StillFresh(s: State, stale: Option<string>, now: int) {
    stale.None? && (s.expiresAt.at == 0 || s.expiresAt.at - now > 30_000)
  }

  /** Whether this call starts a refresh of its own. */
  predicate Starts(s: State, stale: Option<string>, now: int, endpoint: bool) {
    && Truthy(Text(s.token)) && Truthy(Text(s.refreshToken))
    && !StillFresh(s, stale, now)
    && (Truthy(stale) ==> Text(s.token) == stale)
    && s.refreshRequest.None? && endpoint
  }

  function Started(s: State): State
    requires s.token.Some? && s.refreshToken.Some?
  {
    s.(refreshes := s.refreshes[s.started := Pending(s.version, s.refreshToken.value, s.token.value)],
       refreshRequest := Some(s.started), started := s.started + 1)
  }

  function Asked(s: State, stale: Option<string>, now: int, endpoint: bool): State {
    if Starts(s, stale, now, endpoint) then Started(s) else s
  }

  function AnswerTo(s: State, stale: Option<string>, now: int, endpoint: bool): Answer {
    if !Truthy(Text(s.token)) then Now(None)
    else if !Truthy(Text(s.refreshToken)) || StillFresh(s, stale, now) then Now(Text(s.token))
    else if Truthy(stale) && Text(s.token) != stale then Now(Text(s.token))
    else if s.refreshRequest.Some? then Await(s.refreshRequest.value)
    else if !endpoint then Now(Text(s.token))
    else Await(s.started)
  }

  /** The renewed credentials descend from the refresh token that was sent. */
  function Adopted(s: State, refresh: Refresh, grant: Grant, now: int): State
    requires refresh.Pending?
  {
    var lineage := refresh.refreshToken.lineage;
    s.(token := Issue(grant.access, lineage),
       refreshToken := if grant.refresh.Some? then Issue(grant.refresh, lineage) else Some(refresh.refreshToken),
       idToken := if Truthy(grant.id) then Issue(grant.id, lineage) else s.idToken,
       expiresAt := ExpiryOf(grant.expiresIn, now, lineage))
  }

  predicate Rejected(response: Response) {
    response.HttpStatus? && (response.code == 400 || response.code == 401)
  }

  predicate Renews(response: Response) {
    response.Renewed? && Truthy(response.grant.access)
  }

  /** What the reply does to the session, apart from settling its own request. */
  function Replied(s: State, refresh: Refresh, response: Response): State
    requires refresh.Pending?
  {
    if refresh.version != s.version then s
    else if Rejected(response) then SignedOut(s)
    else if Renews(response) then Adopted(s, refresh, response.grant, response.now)
    else s
  }

  function Settle(s: State, id: RequestId, response: Response): State
    requires id in s.refreshes && s.refreshes[id].Pending?
  {
    var t := Replied(s, s.refreshes[id], response);
    t.(refreshes := t.refreshes[id := Settled(s.refreshes[id].version)])
  }

  function OutcomeOf(s: State, refresh: Refresh, response: Response): Outcome {
    match response
    case NetworkFailure => TryAgain
    case HttpStatus(code) => if code == 400 || code == 401 then SessionExpired else TryAgain
    case Renewed(grant, _) =>
      if !Truthy(grant.access) then InvalidResponse
      else if refresh.version != s.version then NoToken
      else Token(grant.access.value)
  }

  /** The starter resumes: it forgets the shared request only when it is still its own. */
  function Finished(s: State, id: RequestId): State {
    s.(refreshes := s.refreshes - {id},
       refreshRequest := if s.refreshRequest == Some(id) then None else s.refreshRequest)
  }

  // ------------------------------------------------------------------- class

  /** The module-level variables, with the asynchronous bodies cut at their awaits. */
  class AdminSession {
    var token: Option<Credential>
    var idToken: Option<Credential>
    var refreshToken: Option<Credential>
    var expiresAt: Expiry
    var refreshRequest: Option<RequestId>
    var sessionVersion: nat
    var refreshes: map<RequestId, Refresh>
    var started: nat

    function Value(): State
      reads this
    {
      State(token, idToken, refreshToken, expiresAt, refreshRequest, sessionVersion, refreshes, started)
    }

    constructor ()
      ensures Value() == INITIAL
    {
      token, idToken, refreshToken, expiresAt := None, None, None, Expiry(0, 0);
      refreshRequest, sessionVersion, refreshes, started := None, 0, map[], 0;
    }

    method SetSession(grant: Grant, now: int)
      modifies this
      ensures Value() == SignedIn(old(Value()), grant, now)
      ensures Text(token) == grant.access && Text(idToken) == grant.id && Text(refreshToken) == grant.refresh
      ensures expiresAt.at == if grant.expiresIn.Some? && grant.expiresIn.value != 0
                              then now + 1000 * grant.expiresIn.value else 0
      ensures refreshRequest == None && sessionVersion == old(sessionVersion) + 1
    {
      token := Issue(grant.access, sessionVersion + 1);
      idToken := Issue(grant.id, sessionVersion + 1);
      refreshToken := Issue(grant.refresh, sessionVersion + 1);
      expiresAt := ExpiryOf(grant.expiresIn, now, sessionVersion + 1);
      refreshRequest := None;
      sessionVersion := sessionVersion + 1;
    }

    method ClearSession()
      modifies this
      ensures Value() == SignedOut(old(Value()))
      ensures token == None && idToken == None && refreshToken == None && expiresAt.at == 0
      ensures refreshRequest == None && sessionVersion == old(sessionVersion) + 1
    {
      token, idToken, refreshToken := None, None, None;
      expiresAt := Expiry(0, sessionVersion + 1);
      refreshRequest := None;
      sessionVersion := sessionVersion + 1;
    }

    /** accessTokenForRequest up to its first await. */
    method AccessTokenForRequest(stale: Option<string>, now: int, endpoint: bool) returns (answer: Answer)
      modifies this
      ensures answer == AnswerTo(old(Value()), stale, now, endpoint)
      ensures Value() == Asked(old(Value()), stale, now, endpoint)
    {
      if !Truthy(Text(token)) {
        return Now(None);
      }
      if !Truthy(Text(refreshToken)) || (stale.None? && (expiresAt.at == 0 || expiresAt.at - now > 30_000)) {
        return Now(Text(token));
      }
      if Truthy(stale) && Text(token) != stale {
        return Now(Text(token));
      }
      if refreshRequest.Some? {
        return Await(refreshRequest.value);
      }
      if !endpoint {
        return Now(Text(token));
      }
      var request := started;
      refreshes := refreshes[request := Pending(sessionVersion, refreshToken.value, token.value)];
      started := started + 1;
      refreshRequest := Some(request);
      answer := Await(request);
    }

    /** The body of the refresh from the reply on. */
    method Reply(id: RequestId, response: Response) returns (outcome: Outcome)
      requires id in refreshes && refreshes[id].Pending?
      modifies this
      ensures Value() == Settle(old(Value()), id, response)
      ensures outcome == OutcomeOf(old(Value()), old(refreshes[id]), response)
      ensures outcome.Token? ==> old(refreshes[id]).version == old(sessionVersion) == sessionVersion
      ensures outcome.Token? ==> Text(token) == Some(outcome.text)
      ensures outcome.SessionExpired? <==> response == HttpStatus(400) || response == HttpStatus(401)
    {
      var refresh := refreshes[id];
      match response {
        case NetworkFailure =>
          outcome := TryAgain;
        case HttpStatus(code) =>
          var rejected := code == 400 || code == 401;
          if refresh.version == sessionVersion && rejected {
            ClearSession();
          }
          outcome := if rejected then SessionExpired else TryAgain;
        case Renewed(grant, now) =>
          if !Truthy(grant.access) {
            outcome := InvalidResponse;
          } else if refresh.version != sessionVersion {
            outcome := NoToken;
          } else {
            var lineage := refresh.refreshToken.lineage;
            token := Issue(grant.access, lineage);
            refreshToken := if grant.refresh.Some? then Issue(grant.refresh, lineage) else Some(refresh.refreshToken);
            if Truthy(grant.id) {
              idToken := Issue(grant.id, lineage);
            }
            expiresAt := ExpiryOf(grant.expiresIn, now, lineage);
            outcome := Token(grant.access.value);
          }
      }
      refreshes := refreshes[id := Settled(refresh.version)];
    }

    /** The finally block of the call that started the refresh. */
    method Finish(id: RequestId)
      modifies this
      ensures Value() == Finished(old(Value()), id)
    {
      refreshes := refreshes - {id};
      if refreshRequest == Some(id) {
        refreshRequest := None;
      }
    }
  }

  // -------------------------------------------------------------------- runs

  datatype Event =
    | SignIn(grant: Grant, now: int)
    | SignOut
    | Ask(stale: Option<string>, now: int, endpoint: bool)
    | Answered(id: RequestId, response: Response)
    | Resumed(id: RequestId)

  predicate Enabled(s: State, e: Event) {
    match e
    case Answered(id, _) => id in s.refreshes && s.refreshes[id].Pending?
    case Resumed(id) => id in s.refreshes && s.refreshes[id].Settled?
    case _ => true
  }

  function Apply(s: State, e: Event): State
    requires Enabled(s, e)
  {
    match e
    case SignIn(grant, now) => SignedIn(s, grant, now)
    case SignOut => SignedOut(s)
    case Ask(stale, now, endpoint) => Asked(s, stale, now, endpoint)
    case Answered(id, response) => Settle(s, id, response)
    case Resumed(id) => Finished(s, id)
  }

  predicate Legal(s: State, events: seq<Event>)
    decreases |events|
  {
    events == [] || (Enabled(s, events[0]) && Legal(Apply(s, events[0]), events[1..]))
  }

  function After(s: State, events: seq<Event>): State
    requires Legal(s, events)
    decreases |events|
  {
    if events == [] then s else After(Apply(s, events[0]), events[1..])
  }

  predicate OfEpoch(credential: Option<Credential>, epoch: nat) {
    credential.Some? ==> credential.value.lineage == epoch
  }

  /** Everything the session holds descends from its current sign-in. */
  predicate OneEpoch(s: State) {
    && OfEpoch(s.token, s.version) && OfEpoch(s.idToken, s.version) && OfEpoch(s.refreshToken, s.version)
    && (s.expiresAt.at != 0 ==> s.expiresAt.lineage == s.version)
  }

  /** A pending refresh of the current epoch is the shared one, and renews the token the session still holds. */
  predicate SingleFlight(s: State) {
    forall id | id in s.refreshes && s.refreshes[id].Pending? && s.refreshes[id].version == s.version ::
      && s.refreshRequest == Some(id)
      && s.token == Some(s.refreshes[id].base)
      && s.refreshes[id].refreshToken.lineage == s.version
  }

  predicate Inv(s: State) {
    && OneEpoch(s) && SingleFlight(s)
    && (s.refreshRequest.Some? ==>
      s.refreshRequest.value in s.refreshes && s.refreshes[s.refreshRequest.value].version == s.version)
    && (forall id | id in s.refreshes :: id < s.started && s.refreshes[id].version <= s.version)
  }

  lemma StepInv(s: State, e: Event)
    requires Inv(s) && Enabled(s, e)
    ensures Inv(Apply(s, e))
  {
    match e
    case Ask(stale, now, endpoint) =>
      if Starts(s, stale, now, endpoint) {
        assert forall id | id in s.refreshes && s.refreshes[id].Pending? :: s.refreshes[id].version != s.version;
      }
    case _ =>
  }

  lemma {:induction false} RunInv(s: State, events: seq<Event>)
    requires Inv(s) && Legal(s, events)
    ensures Inv(After(s, events))
    decreases |events|
  {
    if events != [] {
      StepInv(s, events[0]);
      RunInv(Apply(s, events[0]), events[1..]);
    }
  }

  /** Over every interleaving of sign-ins, sign-outs, callers, late replies and resumptions: all credentials and the
      expiry belong to the current sign-in, and at most one refresh of it is outstanding, the shared one. */
  lemma EpochSafety(events: seq<Event>)
    requires Legal(INITIAL, events)
    ensures OneEpoch(After(INITIAL, events))
    ensures var s := After(INITIAL, events);
      forall a, b | a in s.refreshes && b in s.refreshes && s.refreshes[a].Pending? && s.refreshes[b].Pending?
                    && s.refreshes[a].version == s.version == s.refreshes[b].version ::
                      a == b && s.refreshRequest == Some(a)
  {
    RunInv(INITIAL, events);
  }

  /** The reply to a refresh begun in an older epoch changes nothing but its own bookkeeping, and its starter never
      clears a newer shared request. */
  lemma LateReplyIsIgnored(s: State, id: RequestId, response: Response)
    requires Inv(s) && id in s.refreshes && s.refreshes[id].version != s.version
    ensures s.refreshes[id].Pending? ==>
      Settle(s, id, response) == s.(refreshes := s.refreshes[id := Settled(s.refreshes[id].version)])
    ensures Finished(s, id) == s.(refreshes := s.refreshes - {id})
  {
    assert s.refreshRequest != Some(id);
  }

  /** How the promise of a refresh settles: with a token exactly for a renewal of the current sign-in, which then is the
      session's own token; a late renewal gives none; a rejection expires the session, and anything else may be tried
      again. */
  lemma OutcomeMeans(s: State, id: RequestId, response: Response)
    requires id in s.refreshes && s.refreshes[id].Pending?
    ensures var outcome, late := OutcomeOf(s, s.refreshes[id], response), s.refreshes[id].version != s.version;
      && (forall text :: outcome == Token(text) <==>
            response.Renewed? && response.grant.access == Some(text) && text != "" && !late)
      && (outcome.Token? ==> Text(Settle(s, id, response).token) == Some(outcome.text))
      && (outcome == NoToken <==>
            response.Renewed? && response.grant.access.Some? && response.grant.access.value != "" && late)
      && (outcome == InvalidResponse <==> response.Renewed? && response.grant.access in {None, Some("")})
      && (outcome == SessionExpired <==> response == HttpStatus(400) || response == HttpStatus(401))
      && (outcome == TryAgain <==>
            response.NetworkFailure? || (response.HttpStatus? && response.code != 400 && response.code != 401))
  {
  }

  /** What a reply does to the session: a late one nothing; a rejection of the current refresh ends it; a renewal gives
      the new access token and expiry, and a new refresh or id token where one came, keeping the old one where not;
      anything else nothing. */
  lemma ReplyMeans(s: State, id: RequestId, response: Response)
    requires id in s.refreshes && s.refreshes[id].Pending?
    ensures var t, late := Settle(s, id, response), s.refreshes[id].version != s.version;
      if !late && (response == HttpStatus(400) || response == HttpStatus(401)) then
        && t.token == None && t.idToken == None && t.refreshToken == None && t.expiresAt.at == 0
        && t.refreshRequest == None && t.version == s.version + 1
      else if !late && response.Renewed? && response.grant.access !in {None, Some("")} then
        var grant := response.grant;
        && Text(t.token) == grant.access && t.version == s.version && t.refreshRequest == s.refreshRequest
        && Text(t.refreshToken) ==
             Some(if grant.refresh.Some? then grant.refresh.value else s.refreshes[id].refreshToken.text)
        && Text(t.idToken) == (if grant.id in {None, Some("")} then Text(s.idToken) else grant.id)
        && t.expiresAt.at == (if grant.expiresIn in {None, Some(0)} then 0
                              else response.now + 1000 * grant.expiresIn.value)
      else t == s.(refreshes := t.refreshes)
    ensures Settle(s, id, response).refreshes == s.refreshes[id := Settled(s.refreshes[id].version)]
  {
  }

  /** What a caller is told: nothing without a token; the token held when it cannot or need not be renewed, or is not
      the one reported; the shared refresh when there is one; else a new refresh of the refresh token held. */
  lemma AnswerMeans(s: State, stale: Option<string>, now: int, endpoint: bool)
    ensures var answer, t := AnswerTo(s, stale, now, endpoint), Asked(s, stale, now, endpoint);
      if Text(s.token) in {None, Some("")} then answer == Now(None) && t == s
      else if || Text(s.refreshToken) in {None, Some("")}
              || (stale == None && (s.expiresAt.at == 0 || s.expiresAt.at - now > 30_000))
              || (stale !in {None, Some("")} && stale != Text(s.token)) then answer == Now(Text(s.token)) && t == s
      else if s.refreshRequest.Some? then answer == Await(s.refreshRequest.value) && t == s
      else if !endpoint then answer == Now(Text(s.token)) && t == s
      else
        && answer == Await(s.started) && t.refreshRequest == Some(s.started) && t.started == s.started + 1
        && t.refreshes == s.refreshes[s.started := Pending(s.version, s.refreshToken.value, s.token.value)]
        && t == s.(refreshes := t.refreshes, refreshRequest := t.refreshRequest, started := t.started)
  {
  }

  /** In every reachable state, for every reply: a caller that gets a token gets the one the session then holds, of the
      present sign-in. */
  lemma CallersGetTheSessionsToken(events: seq<Event>, id: RequestId, response: Response)
    requires Legal(INITIAL, events)
    requires var s := After(INITIAL, events); id in s.refreshes && s.refreshes[id].Pending?
    ensures var s := After(INITIAL, events);
      OutcomeOf(s, s.refreshes[id], response).Token? ==>
        var t := Settle(s, id, response);
        && t.token.Some? && t.token.value.text == OutcomeOf(s, s.refreshes[id], response).text
        && t.token.value.lineage == t.version == s.version
  {
    hide Legal, After;
    RunInv(INITIAL, events);
    OutcomeMeans(After(INITIAL, events), id, response);
  }

  /** A caller that reports the token the session holds is told to wait, unless the session cannot refresh. */
  lemma StaleCallersShare(s: State, stale: string, now: int, endpoint: bool)
    requires Inv(s) && stale != "" && Truthy(Text(s.token)) && Truthy(Text(s.refreshToken)) && endpoint
    ensures AnswerTo(s, Some(stale), now, endpoint).Await? <==> Text(s.token) == Some(stale)
    ensures AnswerTo(s, Some(stale), now, endpoint).Await? ==>
      var t := Asked(s, Some(stale), now, endpoint);
      t.refreshRequest == Some(AnswerTo(s, Some(stale), now, endpoint).request) && t.refreshRequest.value in t.refreshes
  {
  }

  // ---------------------------------------------------------- one renewal each

  /** A run with the access tokens ever held, the tokens that a successful refresh has replaced, the requests that did,
      and the stale token that the starter of each request reported. */
  datatype History = History(
    state: State,
    issued: set<string>,
    replaced: seq<string>,
    renewals: seq<RequestId>,
    reported: map<RequestId, string>)

  const NEW := History(INITIAL, {}, [], [], map[])

  /** Authorization servers never issue the same access token twice. */
  predicate FreshTokens(h: History, e: Event) {
    match e
    case SignIn(grant, _) => grant.access.Some? ==> grant.access.value !in h.issued
    case Answered(_, response) => Renews(response) ==> response.grant.access.value !in h.issued
    case _ => true
  }

  /** The reply to a refresh of the current epoch that brings a new access token. */
  predicate Succeeds(s: State, e: Event) {
    && e.Answered? && e.id in s.refreshes && s.refreshes[e.id].Pending? && s.refreshes[e.id].version == s.version
    && Renews(e.response)
  }

  /** A caller that reports a stale token and starts a refresh. */
  predicate Reports(s: State, e: Event) {
    e.Ask? && Truthy(e.stale) && Starts(s, e.stale, e.now, e.endpoint)
  }

  function Record(h: History, e: Event): History
    requires Enabled(h.state, e)
  {
    var t := Apply(h.state, e);
    History(t,
            if t.token.Some? then h.issued + {t.token.value.text} else h.issued,
            if Succeeds(h.state, e) then h.replaced + [h.state.refreshes[e.id].base.text] else h.replaced,
            if Succeeds(h.state, e) then h.renewals + [e.id] else h.renewals,
            if Reports(h.state, e) then h.reported[h.state.started := e.stale.value] else h.reported)
  }

  predicate FreshRun(h: History, events: seq<Event>)
    decreases |events|
  {
    events == [] ||
    (Enabled(h.state, events[0]) && FreshTokens(h, events[0]) && FreshRun(Record(h, events[0]), events[1..]))
  }

  function Recorded(h: History, events: seq<Event>): History
    requires FreshRun(h, events)
    decreases |events|
  {
    if events == [] then h else Recorded(Record(h, events[0]), events[1..])
  }

  predicate TokensInv(h: History) {
    && Inv(h.state) && Distinct(h.replaced)
    && (forall text | text in h.replaced :: text in h.issued)
    && (h.state.token.Some? ==> h.state.token.value.text in h.issued && h.state.token.value.text !in h.replaced)
  }

  /** Every renewal replaced the token that its starter reported. */
  predicate ReportsInv(h: History) {
    && |h.renewals| == |h.replaced|
    && (forall id | id in h.reported :: id < h.state.started)
    && (forall i | 0 <= i < |h.renewals| :: h.renewals[i] < h.state.started)
    && (forall i | 0 <= i < |h.renewals| && h.renewals[i] in h.reported :: h.reported[h.renewals[i]] == h.replaced[i])
    && (forall id | id in h.reported && id in h.state.refreshes && h.state.refreshes[id].Pending? ::
          h.state.refreshes[id].base.text == h.reported[id])
  }

  lemma RecordTokens(h: History, e: Event)
    requires TokensInv(h) && Enabled(h.state, e) && FreshTokens(h, e)
    ensures TokensInv(Record(h, e))
  {
    hide Inv;
    StepInv(h.state, e);
    TokenChanges(h.state, e);
  }

  lemma RecordReports(h: History, e: Event)
    requires ReportsInv(h) && Inv(h.state) && Enabled(h.state, e)
    ensures ReportsInv(Record(h, e))
  {
    hide OneEpoch, SingleFlight;
    match e {
      case Ask(stale, now, endpoint) =>
        if Reports(h.state, e) {
          StartsForItsToken(h.state, stale.value, now, endpoint);
        }
      case _ =>
    }
  }

  /** The access token changes only at a sign-in, a sign-out, or the success of a refresh of the token held. */
  lemma TokenChanges(s: State, e: Event)
    requires Inv(s) && Enabled(s, e)
    ensures Succeeds(s, e) ==>
      s.token == Some(s.refreshes[e.id].base) && Text(Apply(s, e).token) == e.response.grant.access
    ensures e.SignIn? ==> Text(Apply(s, e).token) == e.grant.access
    ensures !Succeeds(s, e) && !e.SignIn? ==> Apply(s, e).token == s.token || Apply(s, e).token == None
  {
  }

  /** The refresh that a caller starts by reporting a stale token is a refresh of that token. */
  lemma StartsForItsToken(s: State, stale: string, now: int, endpoint: bool)
    requires stale != "" && Starts(s, Some(stale), now, endpoint)
    ensures Asked(s, Some(stale), now, endpoint).refreshes[s.started].base.text == stale
  {
  }

  lemma {:induction false} RecordedInv(h: History, events: seq<Event>)
    requires TokensInv(h) && ReportsInv(h) && FreshRun(h, events)
    ensures TokensInv(Recorded(h, events)) && ReportsInv(Recorded(h, events))
    decreases |events|
  {
    hide ReportsInv, Record;
    if events != [] {
      RecordTokens(h, events[0]);
      RecordReports(h, events[0]);
      RecordedInv(Record(h, events[0]), events[1..]);
    }
  }

  /** The successful refreshes started by a caller that reported this token. */
  function RenewalsFor(h: History, text: string): set<int> {
    set i | 0 <= i < |h.renewals| && h.renewals[i] in h.reported && h.reported[h.renewals[i]] == text
  }

  /** However many callers report one stale token, over the whole run they cause at most one successful refresh; and
      once the token has been renewed, whoever caused it, no caller that reports it starts another one. */
  lemma EachTokenIsRenewedOnce(events: seq<Event>, text: string)
    requires FreshRun(NEW, events)
    ensures |RenewalsFor(Recorded(NEW, events), text)| <= 1
    ensures text != "" && text in Recorded(NEW, events).replaced ==>
      forall now, endpoint :: !Starts(Recorded(NEW, events).state, Some(text), now, endpoint)
  {
    RecordedInv(NEW, events);
    AtMostOneRenewal(Recorded(NEW, events), text);
  }

  lemma AtMostOneRenewal(h: History, text: string)
    requires TokensInv(h) && ReportsInv(h)
    ensures |RenewalsFor(h, text)| <= 1
  {
    hide Inv;
    var renewals := RenewalsFor(h, text);
    if renewals != {} {
      var i :| i in renewals;
      forall j | j in renewals ensures j == i {
        assert h.replaced[i] == text == h.replaced[j];
      }
      assert renewals == {i};
    }
  }
}
