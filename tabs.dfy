/**
 * Flows that span several tabs, run as sequential interleavings of broker
 * instances. Tabs of one browser share one SessionStore; a second browser
 * has a store of its own. Only the order of steps is modelled: the short
 * delay before the verification tab completes is not.
 */
module Tabs {
  import opened Wrappers
  import opened OAuthResults
  import opened WebChannel

  /** A verification tab opened from the emailed link, in a browser whose
      store holds a resume record with both tokens: it resumes the channel
      id from the record, restores the tokens into the account and sends
      one oauth_complete on that channel, with keys derived from the stored
      tokens and closeWindow false, or nothing when deriving them fails. */
  method CompleteSignUpInVerificationTab(
      store: SessionStore, channelId: string, params: map<string, string>, uid: string,
      keyFetchToken: string, unwrapBKey: string, code: string,
      svc: KeyServices, authorize: string -> Result<Grant, string>)
    returns (sent: seq<Message>, outcome: Outcome<string>)
    requires keyFetchToken != "" && unwrapBKey != "" && code != ""
    requires store.oauth == Some(OAuthResume(Some(channelId), Some(keyFetchToken), Some(unwrapBKey), params))
    ensures |sent| <= 1 && (sent == [] <==> outcome.Fail?)
    ensures forall m | m in sent ::
      m.channel == WebChannelTo(Some(channelId)) && m.command == "oauth_complete" && m.data.closeWindow == Bool(false)
    ensures var raw := svc.accountKeys(keyFetchToken, unwrapBKey);
            sent != [] <==> authorize(uid).Success? && raw.Success? && svc.deriveRelierKeys(raw.value, uid).Success?
    ensures sent != [] ==>
      sent[0].data.keys == Keys(svc.deriveRelierKeys(svc.accountKeys(keyFetchToken, unwrapBKey).value, uid).value)
    ensures sent != [] ==>
      && sent[0].data.redirect == authorize(uid).value.redirect
      && sent[0].data.code == authorize(uid).value.code
      && sent[0].data.state == authorize(uid).value.state
  {
    var session := new Session(store);
    var broker := new Broker(true, map["code" := code], None, session, svc, authorize);
    broker.Fetch();
    assert broker.webChannelId == Some(channelId);
    var account := new Account(uid, None, None);
    outcome := broker.AfterCompleteSignUp(account);
    sent := broker.sent;
    assert account.keyFetchToken == Some(keyFetchToken) && account.unwrapBKey == Some(unwrapBKey);
    ghost var payload := CompletionPayload(authorize(uid), true, uid, Some(keyFetchToken), Some(unwrapBKey), svc, None);
    assert broker.Delivered([], outcome, payload);
    CompletionWithTokens(authorize(uid), uid, keyFetchToken, unwrapBKey, svc);
    KeysPresence(authorize(uid), true, uid, Some(keyFetchToken), Some(unwrapBKey), svc, None);
  }

  /** Sign-up with keys, verified in a second tab of the same browser. The
      original tab, opened by the relier with a channel id, stores the
      account's tokens in the shared resume record before polling; the
      verification tab then completes the flow on that channel. */
  method SignUpVerifiedInSecondTab(
      channelId: string, params: map<string, string>, uid: string,
      keyFetchToken: string, unwrapBKey: string, code: string,
      svc: KeyServices, authorize: string -> Result<Grant, string>)
    returns (resumed: Option<OAuthResume>, verifyTabSent: seq<Message>, outcome: Outcome<string>)
    requires keyFetchToken != "" && unwrapBKey != "" && code != ""
    ensures resumed == Some(OAuthResume(Some(channelId), Some(keyFetchToken), Some(unwrapBKey), params))
    ensures |verifyTabSent| <= 1 && (verifyTabSent == [] <==> outcome.Fail?)
    ensures forall m | m in verifyTabSent ::
      m.channel == WebChannelTo(Some(channelId)) && m.command == "oauth_complete" && m.data.closeWindow == Bool(false)
    ensures var raw := svc.accountKeys(keyFetchToken, unwrapBKey);
            verifyTabSent != [] <==> authorize(uid).Success? && raw.Success? && svc.deriveRelierKeys(raw.value, uid).Success?
    ensures verifyTabSent != [] ==>
      verifyTabSent[0].data.keys == Keys(svc.deriveRelierKeys(svc.accountKeys(keyFetchToken, unwrapBKey).value, uid).value)
    ensures verifyTabSent != [] ==>
      && verifyTabSent[0].data.redirect == authorize(uid).value.redirect
      && verifyTabSent[0].data.code == authorize(uid).value.code
      && verifyTabSent[0].data.state == authorize(uid).value.state
  {
    // The base broker persisted the resume record when the flow started.
    var store := new SessionStore(Some(OAuthResume(Some(channelId), None, None, params)));

    // The original tab: sign-up form submitted, about to poll.
    var session := new Session(store);
    var original := new Broker(true, map["webChannelId" := channelId], None, session, svc, authorize);
    original.Fetch();
    var account := new Account(uid, Some(keyFetchToken), Some(unwrapBKey));
    original.BeforeSignUpConfirmationPoll(account);
    resumed := store.oauth;

    verifyTabSent, outcome := CompleteSignUpInVerificationTab(
      store, channelId, params, uid, keyFetchToken, unwrapBKey, code, svc, authorize);
  }

  /** Sign-up verified in a different browser: its store holds no resume
      record, so that browser's tab never notifies. */
  method SignUpVerifiedInOtherBrowser(
      uid: string, code: string, wantsKeys: bool,
      svc: KeyServices, authorize: string -> Result<Grant, string>)
    returns (sent: seq<Message>, outcome: Outcome<string>, channel: Option<string>)
    requires code != ""
    ensures sent == [] && outcome == Pass
    ensures channel == None
  {
    var store := new SessionStore(None);
    var session := new Session(store);
    var broker := new Broker(wantsKeys, map["code" := code], None, session, svc, authorize);
    broker.Fetch();
    channel := broker.webChannelId;
    var account := new Account(uid, None, None);
    outcome := broker.AfterCompleteSignUp(account);
    sent := broker.sent;
  }

  /** Password reset completed in a different browser: no notification. */
  method ResetCompletedInOtherBrowser(
      uid: string, code: string, wantsKeys: bool, keyFetchToken: Option<string>, unwrapBKey: Option<string>,
      svc: KeyServices, authorize: string -> Result<Grant, string>)
    returns (sent: seq<Message>, outcome: Outcome<string>)
    requires code != ""
    ensures sent == [] && outcome == Pass
  {
    var store := new SessionStore(None);
    var session := new Session(store);
    var broker := new Broker(wantsKeys, map["code" := code], None, session, svc, authorize);
    broker.Fetch();
    var account := new Account(uid, keyFetchToken, unwrapBKey);
    outcome := broker.AfterCompleteResetPassword(account);
    sent := broker.sent;
  }

  /** Direct sign-in in the tab the relier opened: one oauth_complete on the
      relier's channel, telling the browser it may close the window. It is
      sent exactly when the grant and any key fetch succeed; a relier that
      asked for keys gets the keys derived from the account's tokens. */
  method SignInInOpeningTab(
      channelId: string, uid: string, wantsKeys: bool,
      keyFetchToken: Option<string>, unwrapBKey: Option<string>,
      svc: KeyServices, authorize: string -> Result<Grant, string>)
    returns (sent: seq<Message>, outcome: Outcome<string>)
    ensures |sent| <= 1 && (sent == [] <==> outcome.Fail?)
    ensures forall m | m in sent ::
      m.channel == WebChannelTo(Some(channelId)) && m.command == "oauth_complete" && m.data.closeWindow == Bool(true)
    ensures sent != [] <==>
      && authorize(uid).Success?
      && (wantsKeys && Present(keyFetchToken) && Present(unwrapBKey) ==>
            var raw := svc.accountKeys(keyFetchToken.value, unwrapBKey.value);
            raw.Success? && svc.deriveRelierKeys(raw.value, uid).Success?)
    ensures sent != [] ==>
      && (!wantsKeys ==> sent[0].data.keys == Unset)
      && (wantsKeys && !(Present(keyFetchToken) && Present(unwrapBKey)) ==> sent[0].data.keys == NullKeys)
      && (wantsKeys && Present(keyFetchToken) && Present(unwrapBKey) ==>
            sent[0].data.keys == Keys(svc.deriveRelierKeys(svc.accountKeys(keyFetchToken.value, unwrapBKey.value).value, uid).value))
    ensures sent != [] ==>
      && sent[0].data.redirect == authorize(uid).value.redirect
      && sent[0].data.code == authorize(uid).value.code
      && sent[0].data.state == authorize(uid).value.state
  {
    var store := new SessionStore(None);
    var session := new Session(store);
    var broker := new Broker(wantsKeys, map["webChannelId" := channelId], None, session, svc, authorize);
    broker.Fetch();
    var account := new Account(uid, keyFetchToken, unwrapBKey);
    outcome := broker.AfterSignIn(account);
    sent := broker.sent;
    CloseWindowPolicy(authorize(uid), wantsKeys, uid, keyFetchToken, unwrapBKey, svc);
    KeysPresence(authorize(uid), wantsKeys, uid, keyFetchToken, unwrapBKey, svc, Some(Bool(true)));
  }
}
