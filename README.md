# WebChannel OAuth completion and namespaced storage, modelled in Dafny

This project models two components of the Firefox Accounts content server.

- The **WebChannel OAuth broker** (`app/scripts/models/auth_brokers/web-channel.js`). Each browser tab runs one broker. The broker decides whether that tab finishes an OAuth flow and sends the browser an `oauth_complete` message. The four completion hooks (`afterSignUpConfirmationPoll`, `afterCompleteSignUp`, `afterResetPasswordConfirmationPoll`, `afterCompleteResetPassword`) rest on one rule: reload the persisted session, then complete only if it still holds the resume record `session.oauth`. `afterSignIn` completes unconditionally, without reading the session. Before sending, the broker derives relier-specific keys when the relier asked for them. It also normalises the payload's `closeWindow` flag, and it takes its channel id either from the query or from the resume record.
- The **namespaced key/value store** (`app/scripts/lib/storage.js`). It keeps every caller key under the prefix `__fxa_storage.` in a backend. That backend is `window.localStorage`, or an in-memory `NullStorage` when localStorage is unusable. Values are written as JSON text, and text that does not parse reads back as `undefined`.

Files:

- `wrappers.dfy`: `Option`, `Result` and `Outcome`. `None` stands for JavaScript's `undefined` or `null`, except in `KeyValueStorage.Value`, where `Some(JNull)` is `null`. A `Fail` outcome stands for a rejected promise.
- `json_text.dfy` (module `JsonText`): the JSON text of scalar values. Numbers are limited to the safe integers, those of magnitude at most `Number.MAX_SAFE_INTEGER` (2^53 - 1). For `null`, booleans, safe integers and strings, `Encode` writes what `JSON.stringify` writes. `Decode` plays the part of `JSON.parse`, with a syntax error mapped to `None`. It reads `\u` escapes, including surrogate pairs, which become one character. The round trip `Decode(Encode(v)) == Some(v)` is proved.
- `storage.dfy` (module `KeyValueStorage`): `FullKey`, the backend class, the `Storage` class, the availability probe and `Factory`. The functions `Read`, `Written` and `Erased` state, over the backend's entries, what `get` returns and what `set` and `remove` leave behind. The store's guarantees are lemmas over those functions.
- `oauth_results.dfy` (module `OAuthResults`): the value-level rules of the broker. These cover `closeWindow` normalisation, the key step of `getOAuthResult`, the merged resume record, the verification-flow test and the completion payload.
- `web_channel.dfy` (module `WebChannel`): the objects. `Account` holds the tokens the hooks may overwrite. `SessionStore` is the persisted record shared by the tabs of one browser. `Session` is one tab's copy, with `Reload` and `SetOAuth`. `Broker` holds the `webChannelId` attribute and the log of sent messages, and the hooks are its methods.
- `tabs.dfy` (module `Tabs`): sequential multi-tab runs. Several brokers share one store, or a second browser uses a store of its own.

Behaviour of the store and the broker that follows from the code and is easy to miss:

- `get` on a key with no entry returns `null`. The backend's `getItem` gives `null`, and `JSON.parse(null)` parses the text `"null"`.
- `clear` calls the backend's `clear`, so it empties the whole backend, entries outside the namespace included.
- `set(k, undefined)` stores the text `"undefined"`. That text does not parse, so `get(k)` gives `undefined` back. For this reason set-then-get returns the value for every value, `undefined` included.
- The probe removes its sentinel `local-storage-test` after writing it. An entry with that name that existed before the probe is therefore gone afterwards. No namespaced entry is affected.
- `beforeSignUpConfirmationPoll` creates a resume record when the session had none: `_.extend({}, undefined, tokens)`.

## Model

| member | source | states |
|---|---|---|
| `KeyValueStorage.FullKey` | app/scripts/lib/storage.js:12-16 | the backend key is the namespace, a dot, then the caller key unchanged |
| `KeyValueStorage.FullKeyInjective` | app/scripts/lib/storage.js:14-16 | two caller keys share a backend entry only if they are equal |
| `KeyValueStorage.ProbeKeyOutsideNamespace` | app/scripts/lib/storage.js:48 | the probe's sentinel is never the backend key of any caller key |
| `KeyValueStorage.Storage.constructor` | app/scripts/lib/storage.js:18-20 | a given backend is used as is; without one the store gets a fresh, empty NullStorage |
| `KeyValueStorage.Storage.Get` | app/scripts/lib/storage.js:22-29 | returns what the stored text under the full key parses to; a missing entry parses as `null` and unparsable text gives `undefined`, never an error |
| `KeyValueStorage.Storage.Set` | app/scripts/lib/storage.js:31-33 | the full key's entry becomes the value's JSON text; every other backend entry is unchanged |
| `KeyValueStorage.Storage.Remove` | app/scripts/lib/storage.js:35-37 | the full key's entry is gone; every other backend entry is unchanged |
| `KeyValueStorage.Storage.Clear` | app/scripts/lib/storage.js:39-41 | the backend is empty afterwards, including entries outside the namespace |
| `KeyValueStorage.Storage.IsNull` | app/scripts/lib/storage.js:43-45 | true exactly when the backend is a NullStorage |
| `KeyValueStorage.IsLocalStorageEnabled` | app/scripts/lib/storage.js:47-58 | reports whether localStorage is writable; when it is, the sentinel has been written and removed, so the entries are the old ones minus the sentinel; when it is not, nothing changed |
| `KeyValueStorage.Factory` | app/scripts/lib/storage.js:60-71 | the store uses window.localStorage exactly when the type is `"localStorage"` and the probe succeeds; in every other case it uses a fresh, empty NullStorage; the probe runs only for that type |
| `KeyValueStorage.ReadAfterWrite` | app/scripts/lib/storage.js:22-33 | `set(k, v)` then `get(k)` gives `v` for every value, `undefined` included |
| `KeyValueStorage.ReadOtherAfterWrite` | app/scripts/lib/storage.js:14-33 | `set(k, v)` does not change what any other caller key reads |
| `KeyValueStorage.ReadAfterErase` | app/scripts/lib/storage.js:22-37 | after `remove(k)`, `get(k)` gives the backend's absence result, `null` |
| `KeyValueStorage.EraseIdempotent` | app/scripts/lib/storage.js:35-37 | removing a key twice leaves the same entries as removing it once |
| `KeyValueStorage.ReadOfUnparsableEntry` | app/scripts/lib/storage.js:24-28 | an entry whose text does not parse reads as `undefined` |
| `KeyValueStorage.UndefinedTextDoesNotParse` | app/scripts/lib/storage.js:32 | the text stored for `undefined` does not parse, so it reads back as `undefined` |
| `KeyValueStorage.NullTextParses` | app/scripts/lib/storage.js:25 | the text `"null"`, which a missing entry is parsed as, reads as `null` |
| `KeyValueStorage.ProbeInvisible` | app/scripts/lib/storage.js:52-53 | writing or removing the probe's sentinel changes what no caller key reads |
| `KeyValueStorage.ReadAfterClear` | app/scripts/lib/storage.js:39-41 | after `clear`, every caller key reads as `null` |
| `JsonText.DecodeEncode` | app/scripts/lib/storage.js:25-32 | the text written for a value parses back to that value |
| `JsonText.UnescapePair` | app/scripts/lib/storage.js:25 | the escape of a character outside the Basic Multilingual Plane, written as a `\u` surrogate pair, reads back as that one character |
| `JsonText.ParsePairEscaped` | app/scripts/lib/storage.js:25 | a string literal written with surrogate-pair escapes reads as the characters they encode |
| `JsonText.DecodePairEscape` | app/scripts/lib/storage.js:25 | a string literal holding the surrogate-pair escape of a character outside the Basic Multilingual Plane decodes to that one-character string, as `JSON.parse` gives it |
| `JsonText.PairEscapeOfGrinningFace` | app/scripts/lib/storage.js:25 | the surrogate-pair escape of U+1F600 is the text `\ud83d\ude00`; with `DecodePairEscape`, that text in quotes parses to U+1F600 |
| `KeyValueStorage.Serialise` | app/scripts/lib/storage.js:32 | the text `set` hands to `setItem` parses back to the value; for `undefined` it is the text `"undefined"`, which does not parse and so reads as `undefined` |
| `OAuthResults.NormalizeCloseWindow` | app/scripts/models/auth_brokers/web-channel.js:47-50 | `closeWindow` becomes the boolean "it was exactly `true`"; no other field changes |
| `OAuthResults.AttachKeys` | app/scripts/models/auth_brokers/web-channel.js:72-91 | only `keys` may change; without a key request the result is returned untouched; with one, a successful result always has `keys` set; only a request with both tokens present can fail |
| `OAuthResults.NoFetchIgnoresServices` | app/scripts/models/auth_brokers/web-channel.js:73-82 | in both no-fetch cases the result does not depend on the key services, so they are not called; with keys wanted and a token missing, `keys` is `null` |
| `OAuthResults.DerivedKeys` | app/scripts/models/auth_brokers/web-channel.js:83-91 | with both tokens present, `keys` is `deriveRelierKeys(accountKeys(token, unwrapBKey), uid)`; a failure of either call is the result's failure, and no result with keys is produced |
| `OAuthResults.CloseWindowPolicy` | app/scripts/models/auth_brokers/web-channel.js:94-97 | a completion with `closeWindow: true` sends `true`; a completion without it sends `false` |
| `OAuthResults.KeysPresence` | app/scripts/models/auth_brokers/web-channel.js:69-91 | a completion succeeds exactly when the grant succeeds and, if keys are fetched, both key services do; it carries the grant's redirect, code and state; `keys` is absent when the relier does not want keys, `null` when a token is missing, and otherwise the keys derived from the account's tokens |
| `OAuthResults.CompletionWithTokens` | app/scripts/models/auth_brokers/web-channel.js:83-91 | with keys wanted and both tokens at hand, a completion succeeds exactly when the grant and both key services do; it then carries the derived keys and `closeWindow: false` |
| `OAuthResults.IsVerificationFlow` | app/scripts/models/auth_brokers/web-channel.js:187-189 | true exactly when the query has a `code` parameter that is not empty |
| `OAuthResults.MergeResume` | app/scripts/models/auth_brokers/web-channel.js:104-107 | the new resume record has the account's two tokens and keeps the previous channel id and other fields; with no previous record it has only the tokens |
| `WebChannel.Broker.constructor` | app/scripts/models/auth_brokers/web-channel.js:21-33 | `webChannelId` starts as `null`; the injected channel and the collaborators are kept; nothing has been sent |
| `WebChannel.Broker.GetChannel` | app/scripts/models/auth_brokers/web-channel.js:174-185 | an injected channel is returned unchanged; otherwise a WebChannel bound to the current `webChannelId` |
| `WebChannel.Broker.Fetch` | app/scripts/models/auth_brokers/web-channel.js:35-45 | with a non-empty `code` in the query, the channel id comes from the session's resume record, or stays as it was when there is none; otherwise it comes from the query |
| `WebChannel.Broker.SetupSigninSignupFlow` | app/scripts/models/auth_brokers/web-channel.js:191-193 | the `webChannelId` query parameter, when present, becomes the attribute |
| `WebChannel.Broker.SetupVerificationFlow` | app/scripts/models/auth_brokers/web-channel.js:195-205 | the resume record's channel id becomes the attribute; a second browser without a record keeps the default |
| `WebChannel.Broker.SendOAuthResultToRelier` | app/scripts/models/auth_brokers/web-channel.js:47-56 | exactly one message is appended: `oauth_complete` on the broker's channel with the normalised result; nothing waits for a reply |
| `WebChannel.Broker.GetOAuthResult` | app/scripts/models/auth_brokers/web-channel.js:69-92 | the result is the base broker's grant with the key step applied to the account's current tokens; a failure anywhere is the result |
| `WebChannel.Broker.FinishOAuthFlow` | app/scripts/models/auth_brokers/web-channel.js:116 | a successful result is extended with the caller's `closeWindow` and sent as one message; a failure sends nothing and is the outcome |
| `WebChannel.Broker.AfterSignIn` | app/scripts/models/auth_brokers/web-channel.js:94-97 | completes at once with `closeWindow: true` |
| `WebChannel.Broker.BeforeSignUpConfirmationPoll` | app/scripts/models/auth_brokers/web-channel.js:99-109 | with keys wanted, the session and its store hold the merged resume record; without, neither changes |
| `WebChannel.Broker.AfterSignUpConfirmationPoll` | app/scripts/models/auth_brokers/web-channel.js:111-119 | the session is reloaded from the store; the flow is finished exactly when the reloaded record exists; otherwise nothing is sent and the call succeeds |
| `WebChannel.Broker.AfterCompleteSignUp` | app/scripts/models/auth_brokers/web-channel.js:121-140 | after the reload, a present record with keys wanted first copies its tokens into the account; the flow is finished exactly when the record exists; otherwise nothing is sent and the account is untouched |
| `WebChannel.Broker.AfterResetPasswordConfirmationPoll` | app/scripts/models/auth_brokers/web-channel.js:142-150 | the session is reloaded; the flow is finished exactly when the reloaded record exists |
| `WebChannel.Broker.AfterCompleteResetPassword` | app/scripts/models/auth_brokers/web-channel.js:152-171 | the session is reloaded; the flow is finished exactly when the record exists; the account's tokens are never touched |
| `Tabs.CompleteSignUpInVerificationTab` | tests/functional/oauth_webchannel_keys.js:113-142 | a verification tab over a store holding the tokens sends at most one `oauth_complete`, on the resumed channel, with `closeWindow: false`; it sends it exactly when the grant and key derivation succeed, and it carries the grant's redirect, code and state and the derived keys |
| `Tabs.SignUpVerifiedInSecondTab` | tests/functional/oauth_webchannel_keys.js:79-111 | the original tab's poll stores the tokens next to the channel id in the shared record; the second tab then completes on that channel, when the grant and derivation succeed, with the grant's redirect, code and state, the derived keys and `closeWindow: false` |
| `Tabs.SignUpVerifiedInOtherBrowser` | tests/functional/oauth_webchannel_keys.js:193-223 | a browser without a resume record keeps the default channel id and never notifies |
| `Tabs.ResetCompletedInOtherBrowser` | tests/functional/oauth_webchannel_keys.js:418-459 | a password reset completed in a browser without a resume record never notifies |
| `Tabs.SignInInOpeningTab` | tests/functional/oauth_webchannel_keys.js:461-506 | a direct sign-in sends at most one `oauth_complete`, on the relier's channel, with `closeWindow: true` and the grant's redirect, code and state; it is sent exactly when the grant and any key fetch succeed; a relier that asked for keys gets the keys derived from the account's tokens, or `null` keys when a token is missing |

## Left out

- Promises and the `delay(100)` before the two completion hooks. Every hook runs as a sequence of steps, and a rejected promise is a `Fail` outcome. The delay only mitigates a race and guarantees nothing.
- Real concurrency between tabs and between browsers. `Tabs` runs brokers one after another over a shared store. Nothing is claimed about which tab completes first, or about exclusive completion.
- The base OAuth broker is not part of this model. Its grant request becomes the `authorize` capability, which may fail. Its `finishOAuthFlow` is reduced to: build the result, extend it with `closeWindow`, send it. Any clearing of `session.oauth` that it performs is not modelled, and neither is its part of `fetch`.
- `importSearchParam` is not part of this model. It is taken to set the attribute only when the query has the parameter.
- The session module is not part of this model. `set` is taken to write through to the shared store at once, and `reload` to copy the store's record.
- `fxaClient.accountKeys` and `relier.deriveRelierKeys` are opaque functions that return keys or an error. The cryptography and the network behind them are left out.
- The WebChannel transport, `ChannelMixin.send`, `channel.init` and `window` are left out. Sending appends one message to the broker's log, tagged with the channel it would go to.
- `NullStorage` is not part of this model. It is taken to behave like localStorage: a map whose `getItem` gives null for a missing key.
- JSON is modelled only for `null`, booleans, safe integers and strings. Arrays and objects are out. Numbers are out when they are fractions, when they use exponents, or when their magnitude exceeds `Number.MAX_SAFE_INTEGER`. Those last ones are integers that `JSON.parse` would round to a nearby double. Lone surrogates are out as well, whether escaped or not, because Dafny's `char` cannot hold them. Stored text with any of these forms reads as `undefined` in the model, where `JSON.parse` would accept it.
- `JsonText.Decode` keeps `-0` as the integer 0, and so does not tell `-0` from `0` the way a JavaScript double does.
- Exceptions from the backend outside the probe, such as a quota error in `setItem` during `set`, are left out. The probe's outcome is the window's `storageWritable` input.
- `app/scripts/views/intro.js` is a template-only view with no logic.
