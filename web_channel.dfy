/**
 * The WebChannel OAuth broker of app/scripts/models/auth_brokers/web-channel.js
 * as objects: the account the flow is about, the session record the tabs of
 * one browser share, one tab's in-memory copy of it, and the broker of one
 * tab with its webChannelId attribute and the log of messages it sent to the
 * browser. Promises become sequential steps and a rejected promise becomes
 * a Fail outcome.
 */
module WebChannel {
  import opened Wrappers
  import opened OAuthResults

  /** The account model, as far as the broker reads and writes it. */
  class Account {
    const uid: string
    var keyFetchToken: Option<string>
    var unwrapBKey: Option<string>

    constructor (uid: string, keyFetchToken: Option<string>, unwrapBKey: Option<string>)
      ensures this.uid == uid && this.keyFetchToken == keyFetchToken && this.unwrapBKey == unwrapBKey
    {
      this.uid := uid;
      this.keyFetchToken := keyFetchToken;
      this.unwrapBKey := unwrapBKey;
    }
  }

  /** The persisted session record, shared by every tab of one browser. */
  class SessionStore {
    var oauth: Option<OAuthResume>

    constructor (oauth: Option<OAuthResume>)
      ensures this.oauth == oauth
    {
      this.oauth := oauth;
    }
  }

  /** One tab's copy of the session: loaded when the tab starts, written
      through to the store by set, refreshed from it by reload. */
  class Session {
    const store: SessionStore
    var oauth: Option<OAuthResume>

    constructor (store: SessionStore)
      ensures this.store == store && oauth == store.oauth
    {
      this.store := store;
      oauth := store.oauth;
    }

    method Reload()
      modifies this
      ensures oauth == store.oauth
    {
      oauth := store.oauth;
    }

    method SetOAuth(v: Option<OAuthResume>)
      modifies this, store
      ensures oauth == v && store.oauth == v
    {
      oauth := v;
      store.oauth := v;
    }
  }

  class Broker {
    /** relier.wantsKeys() */
    const relierWantsKeys: bool
    /** The page's query parameters. */
    const query: map<string, string>
    /** The channel passed in at construction, if any. */
    const injectedChannel: Option<ChannelTarget>
    const session: Session
    const services: KeyServices
    /** The base OAuth broker's request for a grant for an account uid. */
    const authorize: string -> Result<Grant, string>

    /** The webChannelId attribute; null by default. */
    var webChannelId: Option<string>
    /** Every message sent to the browser, oldest first. */
    var sent: seq<Message>

    constructor (relierWantsKeys: bool, query: map<string, string>, injectedChannel: Option<ChannelTarget>,
                 session: Session, services: KeyServices, authorize: string -> Result<Grant, string>)
      ensures this.relierWantsKeys == relierWantsKeys && this.query == query
      ensures this.injectedChannel == injectedChannel && this.session == session
      ensures this.services == services && this.authorize == authorize
      ensures webChannelId == None && sent == []
    {
      this.relierWantsKeys := relierWantsKeys;
      this.query := query;
      this.injectedChannel := injectedChannel;
      this.session := session;
      this.services := services;
      this.authorize := authorize;
      webChannelId := None;
      sent := [];
    }

    /** getChannel: the injected channel when there is one, otherwise a
        WebChannel bound to the current webChannelId. */
    function GetChannel(): (c: ChannelTarget)
      reads this`webChannelId
      ensures injectedChannel.Some? ==> c == injectedChannel.value
      ensures injectedChannel.None? ==> c == WebChannelTo(webChannelId)
    {
      if injectedChannel.Some? then injectedChannel.value else WebChannelTo(webChannelId)
    }

    /** What finishing the flow for an account with these tokens sends. */
    function Payload(uid: string, keyFetchToken: Option<string>, unwrapBKey: Option<string>,
                     closeWindow: Option<JsValue>): Result<OAuthResult, string>
    {
      CompletionPayload(authorize(uid), relierWantsKeys, uid, keyFetchToken, unwrapBKey, services, closeWindow)
    }

    /** The log grew by the payload's message exactly when the payload was
        built; otherwise nothing was sent and the error is the outcome. */
    ghost predicate Delivered(before: seq<Message>, outcome: Outcome<string>, payload: Result<OAuthResult, string>)
      reads this`sent, this`webChannelId
    {
      match payload
      case Success(p) => outcome == Pass && sent == before + [Message(GetChannel(), CompleteCommand, p)]
      case Failure(e) => outcome == Fail(e) && sent == before
    }

    // ----- flow setup -----

    /** fetch: a load carrying a verification code resumes the flow from
        the session; any other load takes webChannelId from the query. */
    method Fetch()
      modifies this`webChannelId
      ensures IsVerificationFlow(query) && session.oauth.Some? ==> webChannelId == session.oauth.value.webChannelId
      ensures IsVerificationFlow(query) && session.oauth.None? ==> webChannelId == old(webChannelId)
      ensures !IsVerificationFlow(query) ==>
        webChannelId == if "webChannelId" in query then Some(query["webChannelId"]) else old(webChannelId)
    {
      if IsVerificationFlow(query) {
        SetupVerificationFlow();
      } else {
        SetupSigninSignupFlow();
      }
    }

    /** importSearchParam('webChannelId'). */
    method SetupSigninSignupFlow()
      modifies this`webChannelId
      ensures webChannelId == if "webChannelId" in query then Some(query["webChannelId"]) else old(webChannelId)
    {
      if "webChannelId" in query {
        webChannelId := Some(query["webChannelId"]);
      }
    }

    /** Copies webChannelId from the resume record; a second browser has
        none and keeps the default. */
    method SetupVerificationFlow()
      modifies this`webChannelId
      ensures session.oauth.Some? ==> webChannelId == session.oauth.value.webChannelId
      ensures session.oauth.None? ==> webChannelId == old(webChannelId)
    {
      var resume := session.oauth;
      if resume.None? {
        return;
      }
      webChannelId := resume.value.webChannelId;
    }

    // ----- building and sending the result -----

    /** sendOAuthResultToRelier: normalises closeWindow and sends
        oauth_complete; it resolves at once, with no reply awaited. */
    method SendOAuthResultToRelier(result: OAuthResult)
      modifies this`sent
      ensures sent == old(sent) + [Message(GetChannel(), CompleteCommand, NormalizeCloseWindow(result))]
    {
      var normalized := result;
      if normalized.closeWindow != Bool(true) {
        normalized := normalized.(closeWindow := Bool(false));
      }
      sent := sent + [Message(GetChannel(), CompleteCommand, normalized)];
    }

    /** getOAuthResult: the base broker's result, then the key step. */
    method GetOAuthResult(account: Account) returns (r: Result<OAuthResult, string>)
      ensures r == OAuthResultFor(authorize(account.uid), relierWantsKeys, account.uid,
                                  account.keyFetchToken, account.unwrapBKey, services)
    {
      var grant := authorize(account.uid);
      if grant.Failure? {
        return Failure(grant.error);
      }
      var result := BaseResult(grant.value);
      if !relierWantsKeys {
        return Success(result);
      }
      var uid := account.uid;
      var keyFetchToken := account.keyFetchToken;
      var unwrapBKey := account.unwrapBKey;
      if !Present(keyFetchToken) || !Present(unwrapBKey) {
        result := result.(keys := NullKeys);
        return Success(result);
      }
      var raw := services.accountKeys(keyFetchToken.value, unwrapBKey.value);
      if raw.Failure? {
        return Failure(raw.error);
      }
      var keys := services.deriveRelierKeys(raw.value, uid);
      if keys.Failure? {
        return Failure(keys.error);
      }
      result := result.(keys := Keys(keys.value));
      return Success(result);
    }

    /** finishOAuthFlow of the base broker: build the result, add the
        caller's closeWindow, send it. */
    method FinishOAuthFlow(account: Account, closeWindow: Option<JsValue>) returns (outcome: Outcome<string>)
      modifies this`sent
      ensures Delivered(old(sent), outcome, Payload(account.uid, account.keyFetchToken, account.unwrapBKey, closeWindow))
    {
      var r := GetOAuthResult(account);
      if r.Failure? {
        return Fail(r.error);
      }
      SendOAuthResultToRelier(Extend(r.value, closeWindow));
      return Pass;
    }

    // ----- the hooks -----

    /** afterSignIn: completes at once, telling the browser it may close the window. */
    method AfterSignIn(account: Account) returns (outcome: Outcome<string>)
      modifies this`sent
      ensures Delivered(old(sent), outcome, Payload(account.uid, account.keyFetchToken, account.unwrapBKey, Some(Bool(true))))
    {
      outcome := FinishOAuthFlow(account, Some(Bool(true)));
    }

    /** beforeSignUpConfirmationPoll: when keys are wanted, stores the
        account's tokens in the resume record for the verification tab. */
    method BeforeSignUpConfirmationPoll(account: Account)
      modifies session, session.store
      ensures relierWantsKeys ==>
        && session.oauth == Some(MergeResume(old(session.oauth), account.keyFetchToken, account.unwrapBKey))
        && session.store.oauth == session.oauth
      ensures !relierWantsKeys ==> session.oauth == old(session.oauth) && session.store.oauth == old(session.store.oauth)
    {
      if relierWantsKeys {
        session.SetOAuth(Some(MergeResume(session.oauth, account.keyFetchToken, account.unwrapBKey)));
      }
    }

    /** afterSignUpConfirmationPoll: the original tab finishes the flow
        only if the reloaded session still holds the resume record. */
    method AfterSignUpConfirmationPoll(account: Account) returns (outcome: Outcome<string>)
      modifies this`sent, session
      ensures session.oauth == session.store.oauth
      ensures session.store.oauth.None? ==> sent == old(sent) && outcome == Pass
      ensures session.store.oauth.Some? ==>
        Delivered(old(sent), outcome, Payload(account.uid, account.keyFetchToken, account.unwrapBKey, None))
    {
      session.Reload();
      if session.oauth.Some? {
        outcome := FinishOAuthFlow(account, None);
      } else {
        outcome := Pass;
      }
    }

    /** afterCompleteSignUp: the verification tab finishes the flow if the
        reloaded session holds the resume record, first restoring the
        account's tokens from it when keys are wanted. */
    method AfterCompleteSignUp(account: Account) returns (outcome: Outcome<string>)
      modifies this`sent, session, account
      ensures session.oauth == session.store.oauth
      ensures session.store.oauth.Some? && relierWantsKeys ==>
        && account.keyFetchToken == session.store.oauth.value.keyFetchToken
        && account.unwrapBKey == session.store.oauth.value.unwrapBKey
      ensures !(session.store.oauth.Some? && relierWantsKeys) ==>
        account.keyFetchToken == old(account.keyFetchToken) && account.unwrapBKey == old(account.unwrapBKey)
      ensures session.store.oauth.None? ==> sent == old(sent) && outcome == Pass
      ensures session.store.oauth.Some? ==>
        Delivered(old(sent), outcome, Payload(account.uid, account.keyFetchToken, account.unwrapBKey, None))
    {
      session.Reload();
      if session.oauth.Some? {
        if relierWantsKeys {
          account.keyFetchToken := session.oauth.value.keyFetchToken;
          account.unwrapBKey := session.oauth.value.unwrapBKey;
        }
        outcome := FinishOAuthFlow(account, None);
      } else {
        outcome := Pass;
      }
    }

    /** afterResetPasswordConfirmationPoll: as afterSignUpConfirmationPoll. */
    method AfterResetPasswordConfirmationPoll(account: Account) returns (outcome: Outcome<string>)
      modifies this`sent, session
      ensures session.oauth == session.store.oauth
      ensures session.store.oauth.None? ==> sent == old(sent) && outcome == Pass
      ensures session.store.oauth.Some? ==>
        Delivered(old(sent), outcome, Payload(account.uid, account.keyFetchToken, account.unwrapBKey, None))
    {
      session.Reload();
      if session.oauth.Some? {
        outcome := FinishOAuthFlow(account, None);
      } else {
        outcome := Pass;
      }
    }

    /** afterCompleteResetPassword: the reset tab finishes the flow if the
        reloaded session holds the resume record; the account already has
        the tokens from the typed password and is left alone. */
    method AfterCompleteResetPassword(account: Account) returns (outcome: Outcome<string>)
      modifies this`sent, session
      ensures session.oauth == session.store.oauth
      ensures account.keyFetchToken == old(account.keyFetchToken) && account.unwrapBKey == old(account.unwrapBKey)
      ensures session.store.oauth.None? ==> sent == old(sent) && outcome == Pass
      ensures session.store.oauth.Some? ==>
        Delivered(old(sent), outcome, Payload(account.uid, account.keyFetchToken, account.unwrapBKey, None))
    {
      session.Reload();
      if session.oauth.Some? {
        outcome := FinishOAuthFlow(account, None);
      } else {
        outcome := Pass;
      }
    }
  }
}
