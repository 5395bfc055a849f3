/**
 * The value-level rules of the WebChannel OAuth broker
 * (app/scripts/models/auth_brokers/web-channel.js): how the result sent
 * to the browser is built, how its closeWindow flag is normalised, when
 * relier keys are derived, and how the resume record kept in the session
 * is extended before the sign-up confirmation poll.
 */
module OAuthResults {
  import opened Wrappers

  /** A JavaScript value, as far as strict equality goes. */
  datatype JsValue = Undefined | Null | Bool(b: bool) | Num(n: int) | Str(s: string)

  /** `!! t` for an attribute that may be missing: set and not the empty string. */
  predicate Present(t: Option<string>)
  {
    t.Some? && t.value != ""
  }

  /** The account's key material, as fxaClient.accountKeys returns it. */
  datatype AccountKeys = AccountKeys(kA: string, kB: string)

  /** The relier-specific keys kAr and kBr. */
  datatype RelierKeys = RelierKeys(kAr: string, kBr: string)

  /** The result's `keys` property: not set, null, or the relier's keys. */
  datatype KeysField = Unset | NullKeys | Keys(keys: RelierKeys)

  /** What the OAuth server grants the relier for an account. */
  datatype Grant = Grant(redirect: string, code: string, state: string)

  /** The payload of the `oauth_complete` message. */
  datatype OAuthResult = OAuthResult(redirect: string, code: string, state: string, closeWindow: JsValue, keys: KeysField)

  /** The fallible collaborators of key derivation: fxaClient.accountKeys and
      relier.deriveRelierKeys, as functions that give keys or an error. */
  datatype KeyServices = KeyServices(
    accountKeys: (string, string) -> Result<AccountKeys, string>,
    deriveRelierKeys: (AccountKeys, string) -> Result<RelierKeys, string>)

  /** The resume record `session.oauth`: the channel id, the two tokens the
      verification tab needs to fetch keys, and the other fields the base
      OAuth broker keeps there. */
  datatype OAuthResume = OAuthResume(
    webChannelId: Option<string>,
    keyFetchToken: Option<string>,
    unwrapBKey: Option<string>,
    params: map<string, string>)

  const CompleteCommand: string := "oauth_complete"

  /** The result the base OAuth broker builds from a grant; it sets neither
      closeWindow nor keys. */
  function BaseResult(g: Grant): (r: OAuthResult)
    ensures r.closeWindow == Undefined && r.keys == Unset
    ensures r.redirect == g.redirect && r.code == g.code && r.state == g.state
  {
    OAuthResult(g.redirect, g.code, g.state, Undefined, Unset)
  }

  /** sendOAuthResultToRelier's rewrite: closeWindow becomes a boolean that
      is true exactly when it was the boolean true. */
  function NormalizeCloseWindow(r: OAuthResult): (n: OAuthResult)
    ensures n.closeWindow == Bool(r.closeWindow == Bool(true))
    ensures n.(closeWindow := r.closeWindow) == r
  {
    if r.closeWindow != Bool(true) then r.(closeWindow := Bool(false)) else r
  }

  /** getOAuthResult's key step: leave keys alone when the relier does not
      want them, set them to null when a token is missing, and otherwise
      fetch the account keys and derive the relier's keys from them. */
  function AttachKeys(base: OAuthResult, wantsKeys: bool, uid: string,
                      keyFetchToken: Option<string>, unwrapBKey: Option<string>,
                      svc: KeyServices): (r: Result<OAuthResult, string>)
    ensures r.Success? ==> r.value.(keys := base.keys) == base
    ensures !wantsKeys ==> r == Success(base)
    ensures r.Success? && wantsKeys ==> r.value.keys != Unset
    ensures r.Failure? ==> wantsKeys && Present(keyFetchToken) && Present(unwrapBKey)
  {
    if !wantsKeys then Success(base)
    else if !Present(keyFetchToken) || !Present(unwrapBKey) then Success(base.(keys := NullKeys))
    else
      match svc.accountKeys(keyFetchToken.value, unwrapBKey.value)
      case Failure(e) => Failure(e)
      case Success(raw) =>
        match svc.deriveRelierKeys(raw, uid)
        case Failure(e) => Failure(e)
        case Success(k) => Success(base.(keys := Keys(k)))
  }

  /** Neither no-fetch case consults the key services: the result is the
      same whatever they would do. */
  lemma NoFetchIgnoresServices(base: OAuthResult, wantsKeys: bool, uid: string,
                               keyFetchToken: Option<string>, unwrapBKey: Option<string>,
                               svc1: KeyServices, svc2: KeyServices)
    requires !wantsKeys || !Present(keyFetchToken) || !Present(unwrapBKey)
    ensures AttachKeys(base, wantsKeys, uid, keyFetchToken, unwrapBKey, svc1)
         == AttachKeys(base, wantsKeys, uid, keyFetchToken, unwrapBKey, svc2)
    ensures wantsKeys ==> AttachKeys(base, wantsKeys, uid, keyFetchToken, unwrapBKey, svc1) == Success(base.(keys := NullKeys))
  {
  }

  /** With both tokens present, keys are set exactly when both services
      succeed, to deriveRelierKeys(accountKeys(token, unwrapBKey), uid); a
      failure of either is the result's failure. */
  lemma DerivedKeys(base: OAuthResult, uid: string, keyFetchToken: string, unwrapBKey: string, svc: KeyServices)
    requires keyFetchToken != "" && unwrapBKey != ""
    ensures var r := AttachKeys(base, true, uid, Some(keyFetchToken), Some(unwrapBKey), svc);
            var raw := svc.accountKeys(keyFetchToken, unwrapBKey);
            && (raw.Failure? ==> r == Failure(raw.error))
            && (raw.Success? ==> match svc.deriveRelierKeys(raw.value, uid)
                                 case Failure(e) => r == Failure(e)
                                 case Success(k) => r == Success(base.(keys := Keys(k))))
  {
  }

  /** The whole getOAuthResult: the base broker's grant, then the key step. */
  function OAuthResultFor(grant: Result<Grant, string>, wantsKeys: bool, uid: string,
                          keyFetchToken: Option<string>, unwrapBKey: Option<string>,
                          svc: KeyServices): Result<OAuthResult, string>
  {
    match grant
    case Failure(e) => Failure(e)
    case Success(g) => AttachKeys(BaseResult(g), wantsKeys, uid, keyFetchToken, unwrapBKey, svc)
  }

  /** `_.extend(result, additionalResultData)` for the closeWindow datum. */
  function Extend(r: OAuthResult, closeWindow: Option<JsValue>): OAuthResult
  {
    if closeWindow.Some? then r.(closeWindow := closeWindow.value) else r
  }

  /** What finishOAuthFlow sends: the result, extended and normalised, or
      the error that stopped it. */
  function CompletionPayload(grant: Result<Grant, string>, wantsKeys: bool, uid: string,
                             keyFetchToken: Option<string>, unwrapBKey: Option<string>,
                             svc: KeyServices, closeWindow: Option<JsValue>): Result<OAuthResult, string>
  {
    match OAuthResultFor(grant, wantsKeys, uid, keyFetchToken, unwrapBKey, svc)
    case Failure(e) => Failure(e)
    case Success(r) => Success(NormalizeCloseWindow(Extend(r, closeWindow)))
  }

  /** A completion asked for with closeWindow: true (afterSignIn) tells the
      browser it may close the window; one asked for without it (the four
      after* hooks) never does. */
  lemma CloseWindowPolicy(grant: Result<Grant, string>, wantsKeys: bool, uid: string,
                          keyFetchToken: Option<string>, unwrapBKey: Option<string>, svc: KeyServices)
    ensures var p := CompletionPayload(grant, wantsKeys, uid, keyFetchToken, unwrapBKey, svc, Some(Bool(true)));
            p.Success? ==> p.value.closeWindow == Bool(true)
    ensures var p := CompletionPayload(grant, wantsKeys, uid, keyFetchToken, unwrapBKey, svc, None);
            p.Success? ==> p.value.closeWindow == Bool(false)
  {
    match OAuthResultFor(grant, wantsKeys, uid, keyFetchToken, unwrapBKey, svc)
    case Failure(_) =>
    case Success(r) =>
      assert r.closeWindow == Undefined by {
        var g := grant.value;
        assert r.(keys := Unset) == BaseResult(g);
      }
  }

  /** What a completion carries: the grant's redirect, code and state, and
      keys as getOAuthResult sets them (absent when the relier does not
      want keys, null when a token is missing, otherwise the derived keys).
      It fails exactly when the grant fails or a key fetch that is made
      fails. */
  lemma KeysPresence(grant: Result<Grant, string>, wantsKeys: bool, uid: string,
                     keyFetchToken: Option<string>, unwrapBKey: Option<string>,
                     svc: KeyServices, closeWindow: Option<JsValue>)
    ensures var p := CompletionPayload(grant, wantsKeys, uid, keyFetchToken, unwrapBKey, svc, closeWindow);
            p.Success? <==>
              && grant.Success?
              && (wantsKeys && Present(keyFetchToken) && Present(unwrapBKey) ==>
                    var raw := svc.accountKeys(keyFetchToken.value, unwrapBKey.value);
                    raw.Success? && svc.deriveRelierKeys(raw.value, uid).Success?)
    ensures var p := CompletionPayload(grant, wantsKeys, uid, keyFetchToken, unwrapBKey, svc, closeWindow);
            p.Success? ==>
              && p.value.redirect == grant.value.redirect && p.value.code == grant.value.code
              && p.value.state == grant.value.state
              && (!wantsKeys ==> p.value.keys == Unset)
              && (wantsKeys && !(Present(keyFetchToken) && Present(unwrapBKey)) ==> p.value.keys == NullKeys)
              && (wantsKeys && Present(keyFetchToken) && Present(unwrapBKey) ==>
                    p.value.keys == Keys(svc.deriveRelierKeys(svc.accountKeys(keyFetchToken.value, unwrapBKey.value).value, uid).value))
  {
    match grant
    case Failure(_) =>
    case Success(g) =>
      var base := BaseResult(g);
      if wantsKeys && Present(keyFetchToken) && Present(unwrapBKey) {
        DerivedKeys(base, uid, keyFetchToken.value, unwrapBKey.value, svc);
      } else {
        NoFetchIgnoresServices(base, wantsKeys, uid, keyFetchToken, unwrapBKey, svc, svc);
      }
  }

  /** A hook completion for a relier that wants keys, with both tokens at
      hand: it succeeds exactly when the grant and both key services do,
      and then carries the derived keys and closeWindow false. */
  lemma CompletionWithTokens(grant: Result<Grant, string>, uid: string,
                             keyFetchToken: string, unwrapBKey: string, svc: KeyServices)
    requires keyFetchToken != "" && unwrapBKey != ""
    ensures var p := CompletionPayload(grant, true, uid, Some(keyFetchToken), Some(unwrapBKey), svc, None);
            var raw := svc.accountKeys(keyFetchToken, unwrapBKey);
            && (p.Success? <==> grant.Success? && raw.Success? && svc.deriveRelierKeys(raw.value, uid).Success?)
            && (p.Success? ==> p.value.closeWindow == Bool(false)
                               && p.value.keys == Keys(svc.deriveRelierKeys(raw.value, uid).value))
  {
    CloseWindowPolicy(grant, true, uid, Some(keyFetchToken), Some(unwrapBKey), svc);
    if grant.Success? {
      DerivedKeys(BaseResult(grant.value), uid, keyFetchToken, unwrapBKey, svc);
    }
  }

  /** beforeSignUpConfirmationPoll's new resume record:
      `_.extend({}, session.oauth, {keyFetchToken, unwrapBKey})`. */
  function MergeResume(prev: Option<OAuthResume>, keyFetchToken: Option<string>, unwrapBKey: Option<string>): (r: OAuthResume)
    ensures r.keyFetchToken == keyFetchToken && r.unwrapBKey == unwrapBKey
    ensures prev.Some? ==> r.webChannelId == prev.value.webChannelId && r.params == prev.value.params
    ensures prev.None? ==> r.webChannelId == None && r.params == map[]
  {
    match prev
    case None => OAuthResume(None, keyFetchToken, unwrapBKey, map[])
    case Some(p) => p.(keyFetchToken := keyFetchToken, unwrapBKey := unwrapBKey)
  }

  /** `getSearchParam(name)`: the query parameter, or undefined. */
  function SearchParam(query: map<string, string>, name: string): Option<string>
  {
    if name in query then Some(query[name]) else None
  }

  /** `!! getSearchParam('code')`: this load continues a flow from an
      emailed link exactly when the query has a non-empty code. */
  function IsVerificationFlow(query: map<string, string>): (b: bool)
    ensures b <==> "code" in query && query["code"] != ""
  {
    Present(SearchParam(query, "code"))
  }

  /** Where a message goes: the channel injected at construction, or a
      WebChannel bound to the broker's webChannelId. */
  datatype ChannelTarget = Injected(name: string) | WebChannelTo(id: Option<string>)

  /** A message sent to the browser. */
  datatype Message = Message(channel: ChannelTarget, command: string, data: OAuthResult)
}
