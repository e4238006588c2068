# go-fly-lib token/session core in Dafny

This project models the token and session manager of go-fly-lib (`satoken/`),
the bearer-token lookup rules of its key-auth middleware and a handful of the
library's small conversion helpers.

The manager does three things:

- It issues a bearer token for a login identity (`loginId`).
- It records, in the identity's session, which tokens belong to that identity and on which device.
- It maps each token back to its login id in a key-value store with TTLs.

The configuration selects one of three device policies:

- **ReplacePrevious** (the default, `IsConcurrent == false`): a new login replaces the device's older tokens. Their mapping is overwritten with the sentinel `"-4"`.
- **ShareExisting** (`IsConcurrent && IsShare`): the device's existing token is reused.
- **AlwaysFresh** (`IsConcurrent && !IsShare`): every login gets a token of its own.

Logout can go by token or by identity (optionally per device).

Layout, one module per file:

- `errors.dfy` (`Errors`): the error table with its business codes 10000-10006, and `Option`, `Result` and `Outcome`, which stand in for nil pointers and Go's `(T, error)` and `error` returns.
- `strings.dfy` (`Strings`): `strings.Split` and `Join` on one separator character, and deleting a character (for the UUID's dashes).
- `config.dfy` (`Configs`): `Config`, `NewDefaultConfig` and the policy each configuration selects.
- `keys.dfy` (`Keys`): the `<TokenName>:<loginType>:<kind>:<id>` key templates.
- `sentinels.dfy` (`Sentinels`): the validity sentinels `"-1"`..`"-7"` and `isValidLoginId`.
- `signs.dfy` (`Signs`): the token-sign list as a value, and the functions that specify the session's list operations.
- `records.dfy` (`Records`): `LoginModel` and the stored form of a session.
- `store.dfy` (`Stores`): the token store. It is an in-memory class over `map<key, (value, TTL)>` that keeps the observable contract of the Redis adapter.
- `session.dfy` (`Sessions`): the `Session` class. It holds a copy of a stored record, is mutated in place and is written back with `Save`.
- `manager_spec.dfy` (`ManagerSpec`): each manager operation as a function from the store before the call to the result and the store after it.
- `manager.dfy` (`Managers`): the `Manager` class. Each of its methods is proved to follow the matching `ManagerSpec` function.
- `manager_props.dfy` (`ManagerProps`): the policy properties, proved about the `ManagerSpec` functions. They rest on a well-formedness invariant of the store that every operation preserves: each identity-session is stored under its own key, and its sign values are unique.
- `lookup.dfy` (`KeyAuth`): `LookupTokenFunc` and the header/query/form/param/cookie extractors.
- `type_convert.dfy` (`TypeConvert`): `NewString`, `ToString`, `ToInt32`, `Split` and `ToList`.

Modelling choices:

- **Token generation.** The random UUID is a parameter (`uuid`), so the generated token is an input to each operation. Where a property needs two tokens to differ, it requires that; the code itself checks nothing.
- **Errors.** A `Step` or `Effect` carries the store after the call in both the success and the error case. Some operations write before they fail: `LogoutByToken` deletes the token-session, then can fail on the identity-session's lookup.
- **Store writes.** Store writes never fail in this model.

## Model

| member | source | states |
|---|---|---|
| Errors.BizCode | satoken/manager.go:13-19 | exactly the seven business errors carry a code, and each code is in 10000..10006 |
| Errors.Message | satoken/manager.go:10-19 | every business error's message is an i18n key under "satoken.token." |
| Errors.BizCodesDistinct | satoken/manager.go:13-19 | two different business errors never share a code |
| Configs.Config.Policy | satoken/common.go:94-117 | ReplacePrevious iff not concurrent, ShareExisting iff concurrent and sharing, AlwaysFresh iff concurrent and not sharing |
| Configs.NewDefaultConfig | satoken/config.go:20-27 | TokenName "satoken", TokenStyle "uuid", Timeout 30 minutes, ActiveTimeout -1, and every other field its zero value (not concurrent, not sharing) |
| Configs.DefaultPolicyReplaces | satoken/config.go:20-27 | a default manager takes the replace branch on every login, with a positive timeout |
| Keys.SessionKey | satoken/common.go:26-28 | the identity-session key is `<TokenName>:<loginType>:session:<loginId>` |
| Keys.TokenValueKey | satoken/common.go:30-32 | the token mapping key is `<TokenName>:<loginType>:token:<token>` |
| Keys.TokenSessionKey | satoken/common.go:34-36 | the token-session key is `<TokenName>:<loginType>:token-session:<token>` |
| Keys.LastActiveKey | satoken/common.go:38-40 | the last-active key is `<TokenName>:<loginType>:last-active:<token>` |
| Keys.DisableKey | satoken/common.go:42-44 | the disable key is `<TokenName>:<loginType>:disable:<service>:<loginId>` |
| Keys.SafeKey | satoken/common.go:46-48 | the safe key is `<TokenName>:<loginType>:safe:<service>:<token>` |
| Keys.TagsDiverge | satoken/common.go:26-48 | the tags of two different key kinds differ at a position both of them have |
| Keys.KindsNeverCollide | satoken/common.go:26-48 | for one token name and login type, keys of different kinds never coincide, whatever the ids |
| Keys.KeyInjective | satoken/common.go:26-48 | within one kind, the key determines the id |
| Sentinels.IsValidLoginId | satoken/common.go:223-241 | no error iff the value is non-empty and not a sentinel; "" and "-1" give NoToken; any error is a business error |
| Sentinels.SentinelOf | satoken/common.go:12-20 | each business error has a sentinel value |
| Sentinels.SentinelRoundTrip | satoken/common.go:12-20 | storing an error's sentinel and checking it with isValidLoginId gives back exactly that error ("-2".."-7" map to InvalidToken..NoPrefix) |
| Sentinels.SentinelDeterminedByError | satoken/common.go:223-241 | conversely, a value rejected with error e is e's sentinel, or "" rejected with NoToken |
| Signs.Values | satoken/session.go:127-137 | the sign values, one per sign, in list order |
| Signs.IndexOf | satoken/session.go:103-113 | the index of the first sign with the value, or -1 iff no sign has it |
| Signs.SignsByDevice | satoken/session.go:115-125 | the signs on the device ("" selects every sign), and no others |
| Signs.SignsOffDevice | satoken/common.go:121-145 | exactly the signs that are not on the device |
| Signs.ValuesByDevice | satoken/session.go:127-137 | every value returned belongs to a sign whose device equals the argument, and every such sign's value is returned |
| Signs.AddSignShape | satoken/session.go:81-92 | a new value is appended at the end; an existing value has its sign overwritten in place, and the length is unchanged |
| Signs.AddSignKeepsUnique | satoken/session.go:81-92 | adding keeps sign values unique, and the added sign is in the list afterwards |
| Signs.AddSignIdempotent | satoken/session.go:81-92 | adding the same sign twice is the same as adding it once |
| Signs.AddSignKeepsOthers | satoken/session.go:81-92 | a sign with another value survives an add |
| Signs.AddSign | satoken/session.go:81-92 | the sign is in the result; the list grows by one iff the value was absent; every sign of the result is the new one or an old one |
| Signs.RemoveSign | satoken/session.go:94-101 | an absent value leaves the list as is; otherwise it shrinks by one; nothing new appears |
| Signs.RemoveSignKeepsOthers | satoken/session.go:94-101 | a sign with another value survives a removal |
| Signs.RemoveSigns | satoken/manager.go:100-111 | the list never grows and gains no sign |
| Signs.ValueOf | satoken/session.go:127-137 | a sign's value is among the list's values |
| Signs.SignWithValue | satoken/session.go:127-137 | a value among the list's values belongs to one of its signs |
| Signs.RemoveSignShape | satoken/session.go:94-101 | removing an absent value changes nothing; otherwise the first sign with the value is cut out and the rest keep their order |
| Signs.RemoveSignKeepsUnique | satoken/session.go:94-101 | removal keeps values unique, drops every sign with the value, and adds nothing |
| Signs.RemoveSignSkipsHead | satoken/session.go:94-101 | removal passes over a leading sign with another value |
| Signs.RemoveSignsSkipsHead | satoken/manager.go:100-111 | removing a list of signs passes over a leading sign whose value is not in the list |
| Signs.RemoveSignsByDevice | satoken/manager.go:100-111 | removing, one by one, every sign on a device leaves exactly the signs off that device |
| Signs.TailValuesDiffer | satoken/session.go:81-92 | with unique values, no sign of the tail shares the head's value |
| Signs.RemoveSignsKeepsUnique | satoken/manager.go:100-111 | removing a list of signs keeps values unique |
| Signs.SignsByDeviceAppend | satoken/session.go:115-125 | the device filter distributes over concatenation |
| Signs.ValuesByDeviceAppend | satoken/session.go:127-137 | the value filter distributes over concatenation |
| Signs.ValuesByNamedDevice | satoken/session.go:115-137 | for a non-empty device, the value list is the values of the sign list for that device |
| Signs.ValuesByEmptyDevice | satoken/session.go:127-137 | "" matches by equality only: when no sign has device "", it selects nothing |
| Signs.AddSignFirstOnDevice | satoken/common.go:105-117 | after adding a sign whose value is already first on its device (or when the device has none), its value is the device's first value |
| Signs.AddSignSkipsHead | satoken/session.go:81-92 | adding passes over a leading sign with another value |
| Records.LoginModel.DeviceOrDefault | satoken/session.go:27-32 | "default-device" for an empty device, the device unchanged otherwise; never empty |
| Records.NewRecord | satoken/session.go:10-18 | the new record has the given id, an empty data map and no signs |
| Stores.TtlReading | satoken/store/redis.go:110-112 | -2 for a missing key, -1 for a key without expiry, else the remaining duration |
| Stores.TtlAfterSet | satoken/store/redis.go:94-96 | a positive expiration becomes the TTL; KeepTTL (-1) on an existing key keeps its TTL; any other expiration leaves the key persistent |
| Stores.SetValue | satoken/store/redis.go:94-96 | the key holds the value with the TTL TtlAfterSet gives (a positive expiration expires, 0 or a negative one other than KeepTTL is persistent), and no other key changes |
| Stores.UpdateValue | satoken/store/redis.go:98-104 | the key holds the value and keeps its TTL (a missing key becomes persistent), and no other key changes |
| Stores.ExpireValue | satoken/store/redis.go:114-116 | a missing key is untouched, a non-positive duration deletes the key, a positive one replaces its TTL |
| Stores.ReadText | satoken/store/redis.go:81-92 | a missing key reads as "" with no error; text reads as itself |
| Stores.ReadObject | satoken/store/redis.go:118-127 | a record only when one is stored; a missing key or an empty value is ObjectNotExist |
| Stores.ObjectRoundTrip | satoken/store/redis.go:118-143 | a record written with SetObj or UpdateObj reads back unchanged |
| Stores.Store.constructor | satoken/store/redis.go:48-53 | a new store is empty |
| Stores.Store.Get | satoken/store/redis.go:90-92 | returns ReadText of the current contents |
| Stores.Store.Set | satoken/store/redis.go:94-96 | the new contents are SetValue of the old |
| Stores.Store.Update | satoken/store/redis.go:98-104 | reads the TTL, then sets with it: UpdateValue of the old contents |
| Stores.Store.Delete | satoken/store/redis.go:106-108 | exactly the key is removed |
| Stores.Store.GetTimeout | satoken/store/redis.go:110-112 | returns TtlReading |
| Stores.Store.UpdateTimeout | satoken/store/redis.go:114-116 | the new contents are ExpireValue of the old |
| Stores.Store.GetObj | satoken/store/redis.go:118-127 | returns ReadObject of the current contents |
| Stores.Store.SetObj | satoken/store/redis.go:129-135 | the new contents are SetValue of the old with the record |
| Stores.Store.UpdateObj | satoken/store/redis.go:137-143 | the new contents are UpdateValue of the old with the record |
| Stores.Store.DeleteObj | satoken/store/redis.go:145-147 | exactly the key is removed |
| Stores.Store.GetObjTimeout | satoken/store/redis.go:149-151 | returns TtlReading |
| Stores.Store.UpdateObjTimeout | satoken/store/redis.go:153-155 | the new contents are ExpireValue of the old |
| Sessions.Session.constructor | satoken/session.go:10-18 | the session has the id, an empty data map, no signs, and the given store |
| Sessions.Session.Load | satoken/common.go:50-58 | the session holds exactly the stored record |
| Sessions.Session.Get | satoken/session.go:54-61 | the value under the key, or nil iff the key is absent |
| Sessions.Session.Set | satoken/session.go:63-70 | the key now maps to the value; no other key and no other field changes |
| Sessions.Session.Delete | satoken/session.go:72-79 | the key is gone; no other key and no other field changes |
| Sessions.Session.AddTokenSign | satoken/session.go:81-92 | the sign list becomes AddSign of the old one; nothing else changes |
| Sessions.Session.RemoveTokenSign | satoken/session.go:94-101 | the sign list becomes RemoveSign of the old one; nothing else changes |
| Sessions.Session.GetTokenSign | satoken/session.go:103-113 | the first index holding the value with that sign, or (-1, nil) iff no sign has it |
| Sessions.Session.GetTokenSignListByDevice | satoken/session.go:115-125 | every sign for "", otherwise exactly the device's signs, in list order |
| Sessions.Session.GetTokenValueListByDevice | satoken/session.go:127-137 | the values of the signs whose device equals the argument, in list order; the error is always nil |
| Sessions.Session.Save | satoken/session.go:139-141 | the record is written under the session's id, keeping that key's TTL |
| ManagerSpec.CreateTokenValue | satoken/common.go:244-246 | the token holds no dash, is shorter by the number of dashes, and a dash-free text comes back unchanged |
| ManagerSpec.CreateTokenValueJoins | satoken/common.go:244-246 | two dash-free groups joined by a dash come out concatenated in their order, so the other characters keep order and multiplicity |
| ManagerSpec.Fill | satoken/common.go:185-199 | the callback keeps id, data and signs, sets the login type, and sets kind plus login id (account) or kind plus token (token session) |
| ManagerSpec.LoadOrCreate | satoken/common.go:201-221 | an empty id is an error; a stored record is returned as is; a missing record with create is filled in by the owner's callback, written under the id with the TTL a set with the configured timeout gives, no other key changing, and returned; any other failure is returned and writes nothing |
| ManagerSpec.ReplaceSigns | satoken/common.go:132-143 | the replace loop only adds or rewrites keys, never deletes one |
| ManagerSpec.Replaced | satoken/common.go:121-145 | a missing identity-session is a success that writes nothing; the only failure is a malformed session; no key is deleted |
| ManagerSpec.TokenValues | satoken/common.go:158-167 | a missing session gives the empty list; a readable one gives the values of its signs on exactly that device; the only error is a malformed session |
| ManagerSpec.TokenValue | satoken/common.go:147-156 | fails iff the list lookup fails; otherwise the list's first value, or "" for an empty list |
| ManagerSpec.GenToken | satoken/common.go:91-118 | concurrent: the store is untouched; otherwise it is replaced's store; a caller's token is returned as is; outside the share policy the generated token is returned; the only error is a malformed session |
| ManagerSpec.Login | satoken/common.go:64-85 | on success the token's key holds the login id, with the configured timeout as TTL when it is positive; the only error is a malformed session |
| ManagerSpec.StoredLoginId | satoken/common.go:177-183 | "" for a missing key or a failed read; the login id whenever GetLoginId accepts the token |
| ManagerSpec.SaveOrDelete | satoken/manager.go:112-123 | a session left with no sign is deleted, otherwise it reads back as saved; no other key changes |
| ManagerSpec.LogoutByToken | satoken/manager.go:128-164 | fails only on a malformed identity-session, and then the token's mapping and token-session are already deleted and nothing else changed |
| ManagerSpec.DropTokens | satoken/manager.go:100-111 | the logout loop only deletes keys |
| ManagerSpec.LogoutByLoginId | satoken/manager.go:95-125 | an unreadable identity-session is returned as that error with the store untouched; a readable one always succeeds |
| ManagerSpec.GetSession | satoken/manager.go:167-173 | a token GetLoginId rejects gives that error and writes nothing; a session is returned only for an accepted token; without create nothing is written |
| ManagerSpec.ChooseToken | satoken/common.go:100-117 | a caller's token wins; then a shared token, under the share policy, when one exists; otherwise the generated one |
| ManagerSpec.GetLoginId | satoken/manager.go:68-80 | one read of the token mapping; a missing key is NoToken; a result iff the stored text passes isValidLoginId; every error is a business error or a malformed value |
| Managers.Manager.constructor | satoken/manager.go:35-40 | the manager has the login type, the store and the default configuration |
| Managers.Manager.Default | satoken/manager.go:29-32 | the login type is "login" and the configuration the default |
| Managers.Manager.SetCfg | satoken/manager.go:50-52 | only the configuration changes |
| Managers.Manager.MapTokenStorage | satoken/manager.go:55-57 | only the store changes |
| Managers.Manager.LoadSession | satoken/common.go:50-58 | a fresh session that mirrors the stored record, or the read error |
| Managers.Manager.DeleteSession | satoken/common.go:60-62 | exactly the session's key is removed |
| Managers.Manager.GetSessionBySessionId | satoken/common.go:201-221 | result and store follow LoadOrCreate |
| Managers.Manager.GetSessionByLoginId | satoken/common.go:185-191 | LoadOrCreate at the identity-session key, filling in an account session |
| Managers.Manager.GetTokenSessionByToken | satoken/common.go:193-199 | LoadOrCreate at the token-session key, filling in a token session |
| Managers.Manager.Replaced | satoken/common.go:121-145 | outcome and store follow ManagerSpec.Replaced |
| Managers.Manager.ReplaceEach | satoken/common.go:132-143 | the loop body, sign by sign: remove the sign, save the session, mark the token "-4" |
| Managers.Manager.GetTokenValueListByLoginId | satoken/common.go:158-167 | the identity's token values for the device; a missing session is the empty list; the store is untouched |
| Managers.Manager.GetTokenValueByLoginId | satoken/common.go:147-156 | the first such value, or "" when there is none; the store is untouched |
| Managers.Manager.GenTokenValue | satoken/common.go:91-118 | result and store follow GenToken with the dash-free UUID as the generated token |
| Managers.Manager.CreateLoginSession | satoken/common.go:64-85 | result and store follow ManagerSpec.Login |
| Managers.Manager.Login | satoken/manager.go:83-92 | returns exactly createLoginSession's token, or its error |
| Managers.Manager.GetLoginId | satoken/manager.go:68-80 | equals ManagerSpec.GetLoginId on the current store |
| Managers.Manager.GetLoginIdNotHandle | satoken/common.go:177-183 | the stored text, or "" when the read fails |
| Managers.Manager.DeleteTokenToIdMapping | satoken/common.go:169-171 | exactly the token's mapping is removed |
| Managers.Manager.DeleteTokenSession | satoken/common.go:173-175 | exactly the token's token-session is removed |
| Managers.Manager.LogoutByLoginId | satoken/manager.go:95-125 | outcome and store follow ManagerSpec.LogoutByLoginId |
| Managers.Manager.LogoutEach | satoken/manager.go:100-111 | the loop: every listed sign leaves the session, and its mapping and token-session leave the store |
| Managers.Manager.LogoutByToken | satoken/manager.go:128-164 | outcome and store follow ManagerSpec.LogoutByToken |
| Managers.Manager.GetSession | satoken/manager.go:167-173 | result and store follow ManagerSpec.GetSession |
| ManagerProps.KeysApart | satoken/common.go:26-48 | identity-session, token and token-session keys of one manager never coincide, and each determines its id |
| ManagerProps.TokenKeysMissSession | satoken/common.go:26-48 | deleting or writing token keys leaves every identity-session key untouched |
| ManagerProps.ReplaceSignsKeepsWellFormed | satoken/common.go:121-145 | the replace loop keeps the store well-formed |
| ManagerProps.DropTokensShrinks | satoken/manager.go:100-111 | the logout loop only deletes token and token-session keys |
| ManagerProps.ReplaceSignsFrame | satoken/common.go:132-143 | the replace loop leaves every key other than the session and the listed tokens' mappings untouched |
| ManagerProps.ReplaceSignsRecord | satoken/common.go:132-143 | after the loop the session holds its signs minus the listed ones |
| ManagerProps.ReplaceSignsKeepsMark | satoken/common.go:139-141 | a token already marked "-4" stays marked |
| ManagerProps.ReplaceSignsMarks | satoken/common.go:139-141 | every listed token's mapping reads "-4" afterwards |
| ManagerProps.DropTokensRemoves | satoken/manager.go:100-111 | every listed token loses its mapping and its token-session |
| ManagerProps.DropTokensFrame | satoken/manager.go:100-111 | every other key is untouched |
| ManagerProps.ReplacedEffect | satoken/common.go:121-145 | replaced succeeds; the session keeps exactly the signs off the device; each replaced token's mapping reads "-4" |
| ManagerProps.ReplacedKeepsWellFormed | satoken/common.go:121-145 | replaced keeps the store well-formed |
| ManagerProps.GenTokenKeepsWellFormed | satoken/common.go:91-118 | genTokenValue keeps the store well-formed |
| ManagerProps.LoginKeepsWellFormed | satoken/common.go:64-85 | a login keeps the store well-formed |
| ManagerProps.LoginRecordsToken | satoken/common.go:64-85 | after a login the token maps to the login id with the configured timeout, the identity holds the token's sign on the device, and GetLoginId returns the login id (or the sentinel's error when the id is itself a sentinel) |
| ManagerProps.LoginUnderReplace | satoken/common.go:94-103 | under the replace policy the token is the caller's or the generated one, and the identity's signs become the off-device signs plus the new one |
| ManagerProps.LoginReplacesPrevious | satoken/common.go:121-145 | under the replace policy, a token the device held before a new login now fails GetLoginId with BeReplaced |
| ManagerProps.MarkSurvivesLogin | satoken/common.go:76-82 | a token marked "-4" still fails with BeReplaced after a login's session write and its write of another token's mapping |
| ManagerProps.RewriteSame | satoken/session.go:139-141 | writing back what a key already holds, with its own TTL, leaves the store unchanged |
| ManagerProps.ShareReusesToken | satoken/common.go:105-117 | under the share policy a second login on the device returns the first login's token and leaves the store as the first left it |
| ManagerProps.FreshTokensCoexist | satoken/common.go:64-118 | under the always-fresh policy two logins with different generated tokens both succeed, and both signs and both mappings remain |
| ManagerProps.LogoutByTokenForgets | satoken/manager.go:128-164 | after logout by token, its token-session is gone, GetLoginId fails (with NoToken when the token had a readable mapping), and the store stays well-formed |
| ManagerProps.LogoutByTokenIdempotent | satoken/manager.go:134-143 | a second logout with the same token succeeds and changes nothing |
| ManagerProps.LogoutByTokenSkipsInvalid | satoken/manager.go:128-143 | when the stored value is empty or a sentinel, logout succeeds, deletes the token-session and touches no identity's signs |
| ManagerProps.LogoutByTokenDropsSign | satoken/manager.go:144-163 | logout of a valid token removes its sign; an identity left with no sign is deleted, otherwise saved |
| ManagerProps.LogoutByLoginIdEffect | satoken/manager.go:95-125 | the identity keeps only its off-device signs and is deleted when none remain; each removed token loses its mapping and token-session, so GetLoginId reports NoToken |
| ManagerProps.LogoutByLoginIdMissing | satoken/manager.go:96-99 | a missing identity-session is reported as ObjectNotExist, not swallowed |
| ManagerProps.GetSessionNeedsValidToken | satoken/manager.go:167-173 | GetLoginId's error is returned with the store untouched; otherwise the token-session is read or created |
| ManagerProps.GetSessionKeepsWellFormed | satoken/manager.go:167-173 | GetSession keeps the store well-formed |
| ManagerProps.ReplacedLogin | satoken/common.go:64-145 | a replace-policy login over a readable session leaves replaced's store plus the session write and the mapping write |
| ManagerProps.LoginSessionRoundTrip | demos/satoken/main.go:36-78 | log in, get the token-session with create, set a key and save: getting the token-session again returns the saved record holding the key |
| ManagerProps.ReplacedRecordsToken | satoken/common.go:121-145 | after replaced, a token GetLoginId accepts is among the signs of the identity it maps to |
| ManagerProps.ReplacedKeepsRecorded | satoken/common.go:121-145 | replaced keeps every accepted token recorded in its identity's signs |
| ManagerProps.LoadOrCreateKeepsRecorded | satoken/common.go:185-221 | getting or creating an identity-session keeps every accepted token recorded |
| ManagerProps.AddTokenRecordsToken | satoken/common.go:74-82 | after a login's session write and mapping write, each accepted token, the new one included, is recorded |
| ManagerProps.LoginKeepsRecorded | satoken/common.go:64-85 | a login keeps every accepted token recorded in its identity's signs |
| ManagerProps.DropMappingKeepsRecorded | satoken/common.go:169-175 | deleting a token's mapping or token-session keeps every accepted token recorded |
| ManagerProps.SaveOrDeleteFrame | satoken/manager.go:112-123 | saving or deleting a session leaves every other key as it was |
| ManagerProps.RemoveTokenRecordsToken | satoken/manager.go:144-163 | after a sign is removed and the session saved or deleted, each accepted token is still recorded |
| ManagerProps.LogoutByTokenKeepsRecorded | satoken/manager.go:128-164 | logout by token keeps every accepted token recorded |
| ManagerProps.LogoutByLoginIdRecordsToken | satoken/manager.go:95-125 | after logout by identity, a token GetLoginId accepts is among the signs of the identity it maps to |
| ManagerProps.LogoutByLoginIdKeepsRecorded | satoken/manager.go:95-125 | logout by identity keeps every accepted token recorded |
| ManagerProps.GetSessionKeepsRecorded | satoken/manager.go:167-173 | GetSession keeps every accepted token recorded |
| KeyAuth.SourceOf | middlewares/keyauth/lookup.go:18-29 | query, form, param and cookie select their extractor; every other source, known or not, selects the header |
| KeyAuth.LookupTokenFunc | middlewares/keyauth/lookup.go:13-30 | an extractor iff the spec contains exactly one ':' (otherwise the constructor panics); it keeps the scheme |
| KeyAuth.KeyFromHeader | middlewares/keyauth/lookup.go:33-45 | no scheme: any non-empty value whole; with a scheme: a key iff the value is longer than the scheme plus one and starts with it, the key being what follows the unchecked separator; a key is never empty |
| KeyAuth.NonEmpty | middlewares/keyauth/lookup.go:48-89 | a key iff the value is non-empty, and then the value verbatim |
| KeyAuth.KeyFromQuery | middlewares/keyauth/lookup.go:48-56 | a key iff the query value is non-empty, and then that value |
| KeyAuth.KeyFromForm | middlewares/keyauth/lookup.go:59-67 | a key iff the form value is non-empty, and then that value |
| KeyAuth.KeyFromParam | middlewares/keyauth/lookup.go:70-78 | a key iff the URL parameter is non-empty, and then that value |
| KeyAuth.KeyFromCookie | middlewares/keyauth/lookup.go:81-89 | a key iff the cookie is non-empty, and then that value |
| KeyAuth.Extract | middlewares/keyauth/lookup.go:18-89 | runs the chosen extractor; a key is never empty; the query/form/param/cookie extractors succeed iff their value is non-empty |
| KeyAuth.LookupRoundTrip | middlewares/keyauth/lookup.go:13-30 | for colon-free source and name, `source:name` yields that source's extractor under that name |
| KeyAuth.DefaultLookupIsHeader | middlewares/keyauth/option.go:82-83 | the default spec "header:Authorization" selects the Authorization header with the Bearer scheme |
| KeyAuth.DefaultLookupReadsBearer | middlewares/keyauth/lookup.go:40-42 | with the defaults, "Bearer <key>" yields the key |
| KeyAuth.HeaderRoundTrip | middlewares/keyauth/lookup.go:40-42 | scheme, any one separator, then a non-empty key: the header extractor returns the key |
| TypeConvert.NewString | common/type_convert.go:14-19 | nil iff the string is empty, otherwise a pointer to it |
| TypeConvert.ToString | common/type_convert.go:21-26 | "" for nil, otherwise the pointed-to string |
| TypeConvert.ToInt32 | common/type_convert.go:28-33 | 0 for nil, otherwise the pointed-to value |
| TypeConvert.StringRoundTrip | common/type_convert.go:14-26 | ToString(NewString(s)) == s for every s |
| TypeConvert.PointerRoundTrip | common/type_convert.go:14-26 | NewString(ToString(p)) == p, except that a pointer to "" comes back nil |
| TypeConvert.Split | common/type_convert.go:77-82 | the empty list iff the string is empty; no piece contains ','; a non-empty string is the pieces joined with "," |
| TypeConvert.SplitJoined | common/type_convert.go:77-82 | comma-free pieces other than [""] come back from joining and splitting |
| TypeConvert.ToList | common/type_convert.go:84-90 | every key of the map exactly once, so the length is the map's size; the order is arbitrary |
| Strings.Split | middlewares/keyauth/lookup.go:14 | at least one piece, none containing the separator, and the pieces rejoin to the input |
| Strings.SplitCount | middlewares/keyauth/lookup.go:14-17 | the number of pieces is the separator count plus one |
| Strings.SplitJoin | middlewares/keyauth/lookup.go:14-17 | splitting the join of separator-free pieces gives them back |
| Strings.Delete | satoken/common.go:244-246 | no occurrence of the character remains, the length drops by its count, a one-character string keeps or loses just that character, and a string without the character is unchanged |
| Strings.DeleteAppend | satoken/common.go:244-246 | deleting from a concatenation is deleting from each part, in order |

## Left out

- Every Go `context.Context` argument, and every store failure of a transport kind (a Redis connection error). Writes never fail here. So the "first error stops the loop" path of `replaced` and of `LogoutByLoginId` cannot occur.
- JSON encoding of sessions in `SetObj`/`GetObj`/`Save`: records are stored as values and the round trip is taken as given. Text that is not a record reads back as `Malformed`. A record read with `Get` is `Malformed` too, where Redis would return its JSON text.
- `CreateTime` (`time.Now()`) and the passing of time. TTLs are carried as numbers and nothing expires.
- Stores.UpdateValue: always keeps the key's TTL exactly. Redis reports a TTL in whole seconds, and `Update` sets the value again with that reading, so a key with less than a second left is re-set with a zero duration and becomes persistent, and a longer TTL is rounded down. The model keeps exact durations, because time does not pass in it.
- ManagerProps.TokensRecorded: only one direction of the token/session consistency is proved (an accepted token is among its identity's sign values). The other direction fails in the code: a caller-supplied `LoginModel.Token` that one identity already holds is mapped to a second identity by `createLoginSession` (satoken/common.go:64-85, 100-103), while the first identity's session keeps the sign.
- The session's `sync.Mutex` and every concurrent interleaving: the model is sequential.
- `cast.ToString(loginId)`: login ids are strings. The session's `Data` values and a sign's `Tag` are strings too, not `any`; signs are always created with the tag "".
- `bizerr` wrapping, logging and i18n messages in `GetLoginId`: the error value is returned unchanged. `Errors.Message` keeps the i18n keys only.
- `setTokenValue` does nothing in the source and is not a separate member. `Login` goes straight to `createLoginSession`.
- `MustTokenStorage` (a panic when no store is set): the constructors take the store, so a manager always has one.
- `NewRedisStore` and its variants, and the Redis commands themselves; `Stores.Store` keeps only the adapter's observable contract.
- The last-active, disable and safe key builders: they are modelled as templates in `Keys` and nothing uses them. `ActiveTimeout`, `MaxLoginCount`, `MaxTryTimes`, `DataRefreshPeriod`, `AutoRenew` and the `LoginModel` timeouts are carried but never read.
- `KeyAuth.KeyFromHeader`: lengths are counted in characters, where Go counts the bytes of the UTF-8 encoding. The two agree on ASCII headers.
- The key-auth middleware handler, its options, and the tenant middleware (HTTP glue); the IM client; the demo server.
- In `common/type_convert.go`: time formatting and parsing, `ToJson`/`ToBytes`, `ParseArray` (which uses `cast`), `NewFloat64`, and the pointer constructors `NewTime`, `NewInt`, `NewInt32`, `NewInt64`.
