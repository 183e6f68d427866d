# Mobile banking client: trust-boundary layer

This project models the logic layer of a React Native banking app. The app covers phone/password login, the account balance and transfers to contacts. Six parts are modelled, and properties of each are proved:

- **Problem classifier** (`ApiProblem`). `getGeneralApiProblem` maps an apisauce response to a `GeneralApiProblem` or to null. It switches on the `problem` tag and, for a client error, on the status. The message is the body's `message` when that is non-empty, and otherwise a fixed default for the kind. The `temporary` field is present exactly on the union members that declare it.
- **API client** (`ApiClient`). The class `Api` stores its config and builds its apisauce instance. The five request methods are functions of a `Network`, which stands for the network: any function from the request sent to the outcome, a response or a thrown error. Each method builds its request and shapes the outcome into an envelope. The envelope is `ok` carrying the whole response, a classified problem, or `bad-data` with an `error` field. `DEFAULT_API_CONFIG` is timeout 10000 with the development API URL.
- **Session store** (`Session`). `AuthenticationStore` is a class with the store's props and a `storage` map that stands for secure storage. Each action is a method, and its new state is tied to a step function on a `SessionState` value. The lemmas are stated about those step functions. The store has two views: `isAuthenticated` (`!!authToken`) and `validationError`.
- **Login validators** (`LoginSchemas`). The phone number is checked for length 6–12 and nothing else. The password must match `^(?=.*\d)(?=.*[a-zA-Z]).{8,}$`. The pattern is modelled as its lookaheads and proved to mean: 8 or more characters, no line terminator, an ASCII digit and an ASCII letter.
- **Transfer validator** (`TransferSchemas`). The amount must satisfy 1 ≤ amount ≤ `maxAmount || 100000`, and the description is optional. Amounts are `real`.
- **Contact search** (`ContactSearch`). These are the matching rule of `fetchSearchResults` and the has-a-phone filter of `checkContactList`. They rest on JavaScript's `trim`, `includes`, first-occurrence `replace` and `filter`, which are modelled in `Js`.

Several behaviours of the code are easy to miss. The model follows the code:

- When a request succeeds, the envelope carries the whole response, not just its body.
- A cancelled request, which is non-ok and classifies to null, comes back as `kind: "ok"`.
- A thrown exception becomes `{kind: "bad-data", error}` rather than a `message`.
- `login` replaces the problem's message with `response.data?.message || ""`.
- The store's `login` reads only the two tokens from the response. It rejects with a TypeError when an `ok` result carries no tokens, which is what a cancelled login does (`CancelledLoginRejects`).
- The stored `isAuthenticated` flag is set by the actions independently of the `!!authToken` view. The two can disagree:
  - `SecondHydrateSetsFlagWithoutToken`: hydration writes `""` when no token is stored, and the next hydration reads that `""` as a stored token.
  - `GetAuthTokenWithNothingStored`: `getAuthToken` sets the flag to `null !== ""`. This is the code as written; whether mobx-state-tree lets these writes after `await` happen at all is discussed under "## Left out".
- `validationError` checks the phone number against an e-mail pattern, so it rejects every phone number made of digits (`DigitsNeverValid`).

## Model

| member | source | states |
|---|---|---|
| ApiProblem.GetGeneralApiProblem | app/services/api/apiProblem.ts:46-86 | a problem is returned exactly for the six handled tags (so never for `CANCEL_ERROR`, any other tag or none); it is never `bad-data`, its `temporary` flag is the one its union member declares, and its message is the body message if non-empty, else the kind's default, so never empty |
| ApiProblem.ClassificationTable | app/services/api/apiProblem.ts:47-85 | connection and network errors give `cannot-connect` (temporary), timeout gives `timeout` (temporary), server error gives `server` (no flag), unknown error gives `unknown` (temporary), a client error gives the status-dependent kind, cancel and no tag give null |
| ApiProblem.ClientErrorKind | app/services/api/apiProblem.ts:70-80 | status 401 gives exactly `unauthorized`, 403 exactly `forbidden`, 404 exactly `not-found`, and every other status, or none, gives `rejected` |
| ApiProblem.MessageOr | app/services/api/apiProblem.ts:52 | `data?.message or fallback` read as: a non-empty body message is returned; the fallback when the body or its message is absent or empty |
| ApiProblem.DefaultMessage | app/services/api/apiProblem.ts:52-79 | every default message is non-empty |
| ApiProblem.ConnectionFailureScenario | app/services/api/apiProblem.ts:48-53 | a connection failure with no body is `cannot-connect`, temporary, "Cannot connect to server" |
| ApiProblem.ForbiddenScenario | app/services/api/apiProblem.ts:74-75 | a 403 with body message "Account frozen" is `forbidden` with that message |
| ApiClient.DefaultConfig | app/services/api/api.ts:17-20 | the default configuration has a 10000 ms timeout and the configured API URL |
| ApiClient.Api.constructor | app/services/api/api.ts:33-42 | the object stores the config it was given and builds its instance from that config's URL and timeout, with the JSON Accept header |
| ApiClient.Envelope | app/services/api/api.ts:80-93 | bad-data exactly for a thrown error (its message as `error`); a problem exactly for a non-ok response the classifier maps to one, and then the classifier's value verbatim; otherwise ok with the whole response |
| ApiClient.LoginEnvelope | app/services/api/api.ts:52-70 | as Envelope, except that the problem keeps the classifier's kind and temporary flag and its message becomes the body message, or "" when that is absent or empty |
| ApiClient.Login | app/services/api/api.ts:44-71 | for the outcome of the credentials POST: ok with the whole response exactly for a response that is ok or unclassified; a problem exactly for a non-ok response the classifier maps to one, with the classifier's kind and temporary flag and the body message or ""; bad-data with the thrown message exactly when the call threw |
| ApiClient.CheckPhoneNumber | app/services/api/api.ts:73-94 | for the outcome of the phone lookup: ok with the whole response; a problem exactly for a non-ok response the classifier maps to one, and then the classifier's value; bad-data with the thrown message exactly when the call threw |
| ApiClient.GetAccount | app/services/api/api.ts:96-123 | the same envelope contract, both directions, over the bearer-authenticated account request |
| ApiClient.GetTransactions | app/services/api/api.ts:125-152 | the same envelope contract, both directions, over the bearer-authenticated transactions request |
| ApiClient.CreateTransaction | app/services/api/api.ts:154-183 | a checksum that throws gives bad-data with its message and nothing is sent; otherwise the envelope contract over the POST of the checksummed body |
| ApiClient.TransactionBody | app/services/api/api.ts:159-162 | the body is the five transaction fields unchanged plus a `checksum` key (not one of them) holding the digest |
| ApiClient.TransactionBodyVerifies | app/services/api/api.ts:155-168 | whenever a transaction is sent, a receiver that strips `checksum` from the transmitted body and recomputes the checksum over the rest finds the transmitted value |
| ApiClient.ChecksumFailureIsBadData | app/services/api/api.ts:155-162 | a checksum that throws is caught by the method's `try` and comes back as `bad-data` with its message |
| ApiClient.LoginRequest | app/services/api/api.ts:47-50 | POST `/auth/login` with exactly the phone number and password, and no per-call header |
| ApiClient.CheckPhoneNumberRequest | app/services/api/api.ts:76-78 | POST `users/by-phone-number` with exactly the phone number, and no per-call header |
| ApiClient.GetAccountRequest | app/services/api/api.ts:99-107 | GET `accounts/by-user-id` with no body and only the bearer header |
| ApiClient.GetTransactionsRequest | app/services/api/api.ts:128-136 | GET `transactions/by-user-id` with no body and only the bearer header |
| ApiClient.CreateTransactionRequest | app/services/api/api.ts:157-168 | POST `transactions` with the checksummed body and only the bearer header |
| ApiClient.AuthorizationHeaders | app/services/api/api.ts:103-105 | account, transactions and create-transaction requests send `Authorization: Bearer <token>`; login and phone lookup send no Authorization header |
| ApiClient.OkCarriesWholeResponse | app/services/api/api.ts:64-66 | for every method, an ok response gives `{kind: "ok", data: response}` with the whole response |
| ApiClient.ProblemsPropagateVerbatim | app/services/api/api.ts:82-85 | checkPhoneNumber, getAccount, getTransactions and createTransaction return a classified problem unchanged |
| ApiClient.LoginDropsDefaultMessage | app/services/api/api.ts:54-61 | with no body message, login's problem message is "" where the other methods report the kind's default |
| ApiClient.CancelledFallsThroughToOk | app/services/api/api.ts:54-66 | a non-ok response that classifies to null comes back as ok with that response, from login and from the others |
| ApiClient.CancelErrorIsOk | app/services/api/api.ts:82-89 | a cancelled request, on any status or body, yields kind "ok" |
| ApiClient.ExceptionsBecomeBadData | app/services/api/api.ts:67-70 | a thrown error becomes `{kind: "bad-data", error: message}` and nothing escapes |
| ApiClient.EnvelopeProblemsConform | app/services/api/apiProblem.ts:7-39 | every problem an envelope carries has its union member's shape and is never `bad-data` |
| Session.AuthenticationStore.constructor | app/models/AuthenticationStore.ts:7-12 | a new store has `phoneNumber` "", every optional prop undefined, over the given storage |
| Session.AuthenticationStore.SetAuthToken | app/models/AuthenticationStore.ts:62-65 | the new state is `WithAuthToken` of the old |
| Session.AuthenticationStore.SetRefreshToken | app/models/AuthenticationStore.ts:66-69 | the new state is `WithRefreshToken` of the old |
| Session.AuthenticationStore.SetIsAuthenticated | app/models/AuthenticationStore.ts:70-72 | only the stored flag changes, to the given value |
| Session.AuthenticationStore.Hydrate | app/models/AuthenticationStore.ts:26-38 | the new state is `Hydrated` of the old |
| Session.AuthenticationStore.Login | app/models/AuthenticationStore.ts:39-52 | the outcome and new state are `LoggedIn` of the old state and of `ApiClient.Login` on the same credentials and network |
| Session.AuthenticationStore.GetAuthToken | app/models/AuthenticationStore.ts:53-61 | the returned token and new state are `AuthTokenFetched` of the old state |
| Session.AuthenticationStore.Logout | app/models/AuthenticationStore.ts:73-79 | the new state is `LoggedOut` of the old |
| Session.AuthenticationStore.IsAuthenticated | app/models/AuthenticationStore.ts:14-16 | the view is true exactly when the store's token is defined and non-empty |
| Session.AuthenticationStore.ValidationErrorView | app/models/AuthenticationStore.ts:17-23 | the view is `ValidationError` of the store's `phoneNumber`, with all four of its cases: "" exactly for a value of 6 or more characters matching the e-mail pattern, "can't be blank" exactly for "" |
| Session.TokenIsSet | app/models/AuthenticationStore.ts:14-16 | `!!authToken`: false for an undefined token and for "", true for any other string |
| Session.Initial | app/models/AuthenticationStore.ts:7-12 | the props at their defaults over the given storage: an undefined token (not "", so the view is false), no flag, no refresh token, and `phoneNumber` "", which the validation view calls blank |
| Session.ReadItem | app/models/AuthenticationStore.ts:27-28 | `getItemAsync` yields an item exactly when the key is stored, and then the stored value |
| Session.WithIsAuthenticated | app/models/AuthenticationStore.ts:70-72 | the stored flag becomes the given value and nothing else changes |
| Session.Apply | app/models/AuthenticationStore.ts:25-80 | no action of the store changes `phoneNumber` |
| Session.RunKeepsPhoneNumber | app/models/AuthenticationStore.ts:25-80 | any sequence of actions leaves `phoneNumber` as it was |
| Session.WithAuthToken | app/models/AuthenticationStore.ts:62-65 | the in-memory token and `storage["authToken"]` become the token; no other field or key changes |
| Session.WithRefreshToken | app/models/AuthenticationStore.ts:66-69 | the in-memory refresh token and `storage["refreshToken"]` become the token; no other field or key changes |
| Session.Hydrated | app/models/AuthenticationStore.ts:26-38 | with a stored token: the in-memory token is the stored one, the refresh token is the stored one (or null), the flag is true and storage is unchanged; with none: both tokens are "", the flag is false and "" is written under both keys |
| Session.LoggedIn | app/models/AuthenticationStore.ts:39-52 | a result other than ok leaves the state unchanged and is returned as is; an ok result without a body or without tokens rejects with the state unchanged; an ok result with tokens resolves with the result, sets both tokens and the flag, and writes exactly the two token keys into storage; `phoneNumber` never changes |
| Session.AuthTokenFetched | app/models/AuthenticationStore.ts:53-61 | a token other than "" is returned with no change; a "" token is replaced by the stored one (null if absent) and the flag becomes `loaded !== ""` |
| Session.LoggedOut | app/models/AuthenticationStore.ts:73-79 | both tokens are "", the flag is false, both keys are absent, and every other key is untouched |
| Session.LogoutIdempotent | app/models/AuthenticationStore.ts:73-79 | logging out twice gives the state of logging out once |
| Session.LogoutUnauthenticates | app/models/AuthenticationStore.ts:73-79 | after logout the view is false and agrees with the stored flag |
| Session.LoginStoresTokens | app/models/AuthenticationStore.ts:43-48 | an ok login response with tokens resolves with the result and leaves the flag true, both tokens in memory and under their storage keys, every other storage key and `phoneNumber` untouched, and the view true exactly when the access token is non-empty |
| Session.LoginProblemChangesNothing | app/models/AuthenticationStore.ts:49-51 | a login result other than ok leaves every field and key unchanged and is returned as is |
| Session.CancelledLoginRejects | app/models/AuthenticationStore.ts:43-45 | a cancelled login falls through to ok with no body, so reading its tokens throws and nothing changes |
| Session.HydrateWithStoredToken | app/models/AuthenticationStore.ts:29-32 | hydrating from a stored non-empty token makes both the flag and the view true |
| Session.SecondHydrateSetsFlagWithoutToken | app/models/AuthenticationStore.ts:29-37 | from storage without a token, a first hydration sets the flag false; a second one sets it true while the view stays false |
| Session.GetAuthTokenWithNothingStored | app/models/AuthenticationStore.ts:55-58 | with a "" token and no stored key, getAuthToken as written returns null and sets the flag true, while the view is false (the runtime caveat on these writes is under "## Left out") |
| Session.ValidationError | app/models/AuthenticationStore.ts:17-23 | "can't be blank" exactly for "", "must be at least 6 characters" exactly for lengths 1–5, "must be a valid email address" exactly for longer values failing the pattern, "" exactly for the rest |
| Session.EmailPatternMeaning | app/models/AuthenticationStore.ts:20 | the e-mail pattern holds exactly when the value has no white space, exactly one `@` (not first), and a `.` after the character following it and before the last character |
| Session.MatchesEmailPattern | app/models/AuthenticationStore.ts:20 | the regular expression as three non-empty runs of `[^\s@]` around an `@` and a `.`; a match has at least five characters and contains both |
| Session.DigitsNeverValid | app/models/AuthenticationStore.ts:18-21 | every all-digit value of length 6 or more gets "must be a valid email address" |
| Session.ValidationErrorOfFreshStore | app/models/AuthenticationStore.ts:8 | on a store created with `phoneNumber` "", the view reports "can't be blank" after any sequence of actions |
| Session.LoginScenario | app/models/AuthenticationStore.ts:26-79 | a store over empty storage, hydrated and logged in against a server answering tokens "abc"/"def", is authenticated with both tokens stored; logging out twice is logging out once |
| LoginSchemas.PhoneNumberIssues | app/utils/schemas/loginSchemas.ts:5-14 | no issue exactly for a string of length 6 to 12; any failure is the single issue "Please input valid phone number." |
| LoginSchemas.PhoneNumberIgnoresCharacters | app/utils/schemas/loginSchemas.ts:9-13 | twelve arbitrary characters pass, while lengths 5 and 13 fail |
| LoginSchemas.PasswordPatternMeaning | app/utils/schemas/loginSchemas.ts:19 | the pattern holds exactly for 8 or more characters, none a line terminator, with an ASCII digit and an ASCII letter |
| LoginSchemas.MatchesPasswordPattern | app/utils/schemas/loginSchemas.ts:19 | the regular expression as its two lookaheads and `.{8,}$`; a match has at least eight characters |
| LoginSchemas.PasswordIssues | app/utils/schemas/loginSchemas.ts:15-21 | no issue exactly for a string matching the pattern; another string gets the pattern message, anything that is not a string gets "Please input valid password." |
| LoginSchemas.LoginSchemaIssues | app/utils/schemas/loginSchemas.ts:3-22 | the schema accepts exactly when both fields pass; every issue is about one of the two fields, no field has two issues and a phone-number issue comes first; a phone-number issue is present exactly when its check fails and carries the phone message; a password issue is present exactly when its check fails and carries the pattern message for a string, the type message otherwise |
| LoginSchemas.ScenarioCredentials | app/utils/schemas/loginSchemas.ts:19-20 | "60123456789" with "Passw0rd" passes; "Password" fails with the pattern message |
| Zod.InvalidTypeMessage | app/utils/schemas/transferSchemas.ts:6-11 | zod's default type message is "Required" exactly for an undefined value; otherwise it is defined as "Expected <type>, received <received type>" |
| TransferSchemas.UpperBound | app/utils/schemas/transferSchemas.ts:8 | the bound is `maxAmount` when non-zero and 100000 when zero |
| TransferSchemas.AmountIssues | app/utils/schemas/transferSchemas.ts:6-10 | no issue exactly for a number in [1, bound]; below 1 the first issue is "The minimum transfer amount is RM1.00"; a value that is not a number gets a type issue |
| TransferSchemas.DescriptionIssues | app/utils/schemas/transferSchemas.ts:11 | the description passes exactly when absent or a string |
| TransferSchemas.TransferSchemaIssues | app/utils/schemas/transferSchemas.ts:4-12 | the schema accepts exactly an amount in [1, bound] with an absent or string description |
| TransferSchemas.AcceptedRange | app/utils/schemas/transferSchemas.ts:6-10 | for a non-zero limit, an amount is accepted exactly when 1 ≤ amount ≤ limit |
| TransferSchemas.RaisingLimitKeepsAccepted | app/utils/schemas/transferSchemas.ts:7-8 | for non-zero limits, raising the limit never rejects an amount that was accepted |
| TransferSchemas.ZeroLimitMeansDefault | app/utils/schemas/transferSchemas.ts:8 | limit 0 accepts 100 where limit 50 does not, and accepts up to 100000 inclusive |
| TransferSchemas.BelowMinimumMessage | app/utils/schemas/transferSchemas.ts:7 | an amount below 1 is reported with the minimum message whatever the limit |
| ContactSearch.Clean | app/screens/Transfers/ContactList.tsx:37-38 | the cleaned string has no space; with no "+60" in it only the spaces are removed, and otherwise the first "+60" is cut out and then every space removed |
| ContactSearch.SearchContacts | app/screens/Transfers/ContactList.tsx:32-54 | it fails exactly when a contact lacks `phoneNumbers` (the thrown error is caught); otherwise the result is an order-keeping subsequence of the list in which every contact matches, and it holds each matching contact as many times as the list does |
| ContactSearch.NumberMatches | app/screens/Transfers/ContactList.tsx:35-43 | an undefined number matches exactly when the cleaned term contains the text "undefined"; a defined number matches an empty term and a term equal to it up to surrounding white space |
| ContactSearch.ContactMatches | app/screens/Transfers/ContactList.tsx:34-45 | a contact without phone numbers never matches; a contact matches as soon as one of its numbers does |
| ContactSearch.SearchResultsComeFromList | app/screens/Transfers/ContactList.tsx:34 | every contact the search returns is a contact of the list |
| ContactSearch.NumberInsideTermMatches | app/screens/Transfers/ContactList.tsx:42 | the reversed test: a number whose cleaned form occurs in the trimmed cleaned term matches |
| ContactSearch.EmptyTermMatchesDefinedNumbers | app/screens/Transfers/ContactList.tsx:41-42 | with the empty term a contact matches exactly when one of its numbers is defined |
| ContactSearch.EmptyTermKeepsAll | app/screens/Transfers/ContactList.tsx:34-45 | with the empty term, a list whose contacts all have a defined number is returned whole |
| ContactSearch.OnlyFirstPrefixStripped | app/screens/Transfers/ContactList.tsx:37-38 | only the first "+60" is removed ("+60+60" becomes "+60") |
| ContactSearch.LoadedContacts | app/screens/Transfers/ContactList.tsx:70-89 | with permission and a non-empty answer, the list becomes the contacts with at least one phone number, in order and each as many times as fetched; otherwise it is left as it was |
| ContactSearch.HasPhoneNumbers | app/screens/Transfers/ContactList.tsx:80 | defined as `item.phoneNumbers?.length > 0`: the contact has a defined, non-empty list of numbers |
| ContactSearch.SearchLoadedListSucceeds | app/screens/Transfers/ContactList.tsx:79-81 | searching a list loaded by `checkContactList` never throws |
| Js.Filter | app/screens/Transfers/ContactList.tsx:34 | `filter` returns an order-keeping subsequence of elements satisfying the predicate, holding each satisfying value exactly as many times as the input does |
| Js.FilterKeepsAll | app/screens/Transfers/ContactList.tsx:34 | a filter whose predicate holds for every element returns the whole sequence |
| Js.IndexOf | app/screens/Transfers/ContactList.tsx:37 | the first index where the pattern occurs, or none exactly when it does not occur |
| Js.ReplaceFirst | app/screens/Transfers/ContactList.tsx:37-38 | a string pattern replaces only its first occurrence; with none the string is unchanged |
| Js.RemoveAll | app/screens/Transfers/ContactList.tsx:37-38 | `replace(/ /g, "")` leaves no space and keeps every other character, in order and as many times as it occurs |
| Js.Trim | app/screens/Transfers/ContactList.tsx:41-42 | `trim` returns a contiguous slice with only white space cut from either end and no white space at its ends |
| Js.ContainsEmpty | app/screens/Transfers/ContactList.tsx:41 | every string includes the empty string |
| Js.Contains | app/screens/Transfers/ContactList.tsx:41-42 | defined as `includes`: the needle occurs at some index of the haystack |

## Left out

- Network I/O is not modelled. The apisauce `post`/`get` calls, the base URL and timeout at request time, logging (`console.log`, `console.tron`) and `__DEV__` are all replaced by the `Network` parameter. The model does not tie `ok`, `problem` and `status` to each other the way apisauce does, so it covers every combination.
- The checksum is a function parameter, because the HMAC-SHA256 of `app/utils/security/checksum.ts` is a foreign crypto call. It yields a digest or a thrown error; which keys make it throw (for example a missing `CHECKSUM_KEY`) is not modelled. It is taken over the field mapping, so its dependence on `JSON.stringify` key order is not modelled.
- Body messages are `Option<string>`. A truthy `message` that is not a string, and a token that is not a string, are not modelled. `Tokens` always holds both tokens, so a response whose `tokens` has `access` but no `refresh` is not modelled: there the source throws after `setAuthToken` has already run, leaving a partial write.
- Secure storage is a synchronous map. Async suspension points, interleavings and the un-awaited setters in `login` are not modelled.
- Session.AuthenticationStore.GetAuthToken: the writes to `store.authToken` and `store.isAuthenticated` after the `await` (app/models/AuthenticationStore.ts:57-58) run outside the action, which mobx-state-tree refuses on a protected tree. The model lets them take effect, so `GetAuthTokenWithNothingStored` describes the code as written, not what happens at run time.
- In the action sequences of `Session.Run`, the `login` action is applied to the API result it received; the network call itself is `ApiClient.Login`.
- Hydrate: when an auth token is stored but no refresh token is, the source passes `null` to `setRefreshToken`. The model sets the in-memory refresh token to null and leaves its key absent. Whether expo-secure-store rejects a null value is not modelled.
- Session.AuthenticationStore.Hydrate and Login: these actions call the setters through `this` (app/models/AuthenticationStore.ts:30-36 and 45-47), while every other action writes through `store`. mobx-state-tree runs an action without binding `this` to the actions object, so those calls may throw before any field is written. The model follows the text and lets the calls run, so `Hydrated`, `LoggedIn`, `HydrateWithStoredToken` and `LoginStoresTokens` describe the code as written.
- mobx-state-tree runtime type checks are not modelled. One example is assigning `null` to a `types.maybe(types.string)` prop. The clash between the `isAuthenticated` prop and the view of the same name is modelled as a stored flag plus the `IsAuthenticated` view.
- String lengths count Unicode scalar values, not UTF-16 code units as JavaScript does.
- TransferSchemas.AmountIssues: the over-limit message embeds `maxAmount.toFixed(2)`, which is a formatting parameter here. NaN, infinities and binary floating-point rounding are not modelled, because amounts are `real`.
- zod's stripping of unknown keys and its handling of an input that is not an object are not modelled.
- Screen behaviour is left out: rendering, navigation, styles, biometric prompts, the contact-permission request (reduced to a `granted` flag), `debounce`, attempt counters and the React state setters. The search result is returned instead of being passed to `setFilteredListData`.
- The production configuration is not part of this model; `API_URL` is the development value.
- Account, transaction and episode response shapes (`IAccount`, `ITransaction`, `ApiFeedResponse`) are carried opaquely inside the response. No behaviour depends on them.
- Call-site mistakes in the screens are not modelled, for example `login(password)` with one argument and an uncalled schema factory passed as a resolver.
