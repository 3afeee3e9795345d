# React Native template core, modelled in Dafny

This project models the core of a React Native application template.

- **The network middleware `NetworkManager`.**
  - It builds an HTTP request from an endpoint descriptor, URL parameters, a body and optional form data. It encrypts the parameters and the body, adds the access token when the user is signed in, and sends the request.
  - It decodes the encrypted response and resolves to a uniform `NetworkResponse`.
  - It reports problems through the Redux store:
    - an offline error screen that keeps the failed request for a retry;
    - a logout with a "Session Expired" toast on 401;
    - a generic error toast for other failures;
    - hiding the error screen on 200/201.
  - When the error screen holds a retained request, the next call sends that request again instead of building a new one.
- **The Redux slices the middleware works with.** These are auth, the error screen with its single retry slot, toast, popup, loader and language. There is also the store that dispatches to them.
- **The endpoint registry and the TanStack Query policy.** The policy covers the query-key builders, the retry back-off, the global error handler and the online flag.
- **The form validators.** These are e-mail, 10-digit mobile number, password and OTP.
- **The OTP entry component.** It keeps a buffer of boxes that typing, pasting and backspace update in place.
- **The general helpers.**
  - An in-place prefix overwrite.
  - The dashboard name search.
  - The calendar quarter of a month.
  - The translation lookup by the selected language.

## How the model is laid out

JavaScript values are the datatype `JsValue.Value`, which includes `undefined` and `null`. Truthiness, `||`, `??`, `?.` and `${}` are written out, so each branch of the source that turns on them is modelled as it behaves.

**Slices.** Each slice is a class whose fields the case reducers update in place. A pure `Apply` function on the slice's state value specifies each class.
- `ReduxStore.Store` holds the six slices and a log of dispatched actions.
- `Store.Dispatch` is proved to perform one step of the root reducer `Step`.
- `Replay` runs a sequence of actions.

**Network middleware.** `NetworkMiddleware.NetworkManager` is an imperative method on the store. It dispatches the same actions, in the same order, as the source. It is proved equal to the pure plan `NetworkSpec.Plan`:
- the same outcome;
- the same request sent;
- a store state equal to replaying the planned actions;
- a log extended by exactly those actions.

Every property of a call is then proved about `Plan`, in `RequestProperties` and `ResponseProperties`.

**Injected inputs.** The cipher, `JSON.stringify`/`JSON.parse` and the base URL are fields of a `Platform` value. `decrypt` and `parse` may fail. The HTTP client is a function from the request config to a `Transport` outcome. The connectivity flag is a parameter.

**The OTP component.** Its handlers are methods of the class `OtpInput.OtpBoxes`:
- the buffer is an `array<string>`, written in place;
- a paste replaces it with a fresh array;
- the parent's `otp` state is a field that receives a copy after every change.

Each handler is specified by a pure function on `OtpState`, and the properties are lemmas about those functions.

**`getUpdateArr`.** It is a loop over `UtilsFunc.JsArray`, a class holding the array's contents. A write one past the end grows the array, as JavaScript does.

**Behaviour worth knowing.**
- The middleware reads the connectivity flag before sending (Network_Manager.ts:94) but acts on it only after the transport has failed (Network_Manager.ts:196). An offline device still sends the request; the flag decides only what a failure shows.
- `success` on a 200/201 response is `decrypted.status ?? true`. It can be any value the server sends, not only a boolean, and `??` falls through on `null` as well as on `undefined`.
- The source's own comment at Network_Manager.ts:111-116 describes array parameters as path segments (`/id1/id2`). The code does not do that: an array of parameters is encrypted into `?reqData=` like an object, and an empty array adds nothing.
- The `reqData` query value is the cipher's base64 text as it is, without URL encoding.

## Model

| member | source | states |
|---|---|---|
| Strings.DigitsOnly | template/src/common/components/common-input/CommonOtpInput.tsx:85 | `replace(/[^0-9]/g, '')` keeps only digits, is no longer than its input, leaves an all-digit string unchanged and turns a string without digits into `''`; with DigitsOnlyAppend this fixes the result on every input |
| Strings.DigitsOnlyAppend | template/src/common/components/common-input/CommonOtpInput.tsx:85 | stripping non-digits distributes over concatenation, so nothing is reordered or merged |
| Strings.TrimEmpty | template/src/common/hooks/validators/useValidators.ts:3 | `trim()` is empty exactly when every character is ECMAScript white space |
| JsValue.OrTruthy | template/src/network/middleware/Network_Manager.ts:263 | `x || fallback` is truthy whenever the fallback is |
| Endpoints.AllNamesComplete | template/src/network/apis/endpoints/Endpoints.ts:9-27 | the registry holds exactly nine endpoints |
| Endpoints.AuthenticatedUseGet | template/src/network/apis/endpoints/Endpoints.ts:18-26 | LOGOUT, REFRESH_TOKEN and FETCH_PROFILE use GET |
| Endpoints.NonAuthenticatedMethods | template/src/network/apis/endpoints/Endpoints.ts:10-17 | PRIVACY_POLICY and TERMS_CONDITION use GET; LOGIN, SIGNUP, FORGET_PASSWORD and SENDOTP use POST |
| Endpoints.OnlySignupIsRegister | template/src/network/middleware/Network_Manager.ts:149 | of the registered paths, exactly SIGNUP's contains the register route and takes the multipart branch |
| Endpoints.NoUpdateProfileEndpoint | template/src/network/middleware/Network_Manager.ts:161 | no registered path contains the update-profile route, so that branch is reachable only from paths outside the registry |
| Endpoints.PathsDistinct | template/src/network/apis/endpoints/Endpoints.ts:9-27 | the nine paths are pairwise distinct |
| AuthReducer.AuthSlice.constructor | template/src/redux/reducers/authReducer.ts:11-16 | the slice starts logged out, with null user data and tokens |
| AuthReducer.AuthSlice.LoginReducer | template/src/redux/reducers/authReducer.ts:44-51 | sets authenticated and copies user data and both tokens from the payload |
| AuthReducer.AuthSlice.LogoutReducer | template/src/redux/reducers/authReducer.ts:52-59 | returns the slice to the initial state |
| AuthReducer.AuthSlice.RefreshTokenReducer | template/src/redux/reducers/authReducer.ts:60-65 | replaces both tokens and keeps the authenticated flag and user data |
| AuthReducer.InitialIsLoggedOut | template/src/redux/reducers/authReducer.ts:11-16 | the initial state is not authenticated and holds null user data and tokens |
| AuthReducer.LogoutResetsToInitial | template/src/redux/reducers/authReducer.ts:52-59 | logout from any state gives the initial state |
| AuthReducer.LogoutIdempotent | template/src/redux/reducers/authReducer.ts:52-59 | a second logout changes nothing |
| AuthReducer.LoginThenLogout | template/src/redux/reducers/authReducer.ts:44-59 | login followed by logout gives the initial state, whatever was logged in |
| AuthReducer.RefreshKeepsSession | template/src/redux/reducers/authReducer.ts:60-65 | a token refresh keeps the session flag and user data and installs the new tokens |
| ErrorReducer.ErrorSlice.constructor | template/src/redux/reducers/errorReducer.ts:11-17 | hidden, empty texts, label 'Try again', no retained config |
| ErrorReducer.ErrorSlice.ShowErrorScreen | template/src/redux/reducers/errorReducer.ts:30-38 | shown, with every payload field copied, including the retained request config |
| ErrorReducer.ErrorSlice.HideErrorScreen | template/src/redux/reducers/errorReducer.ts:39-46 | hidden, texts and retained config cleared, button label kept |
| ErrorReducer.InitialIsHidden | template/src/redux/reducers/errorReducer.ts:11-17 | the initial error screen is hidden with label 'Try again' and an empty slot |
| ErrorReducer.ShowLastWriteWins | template/src/redux/reducers/errorReducer.ts:30-38 | of two shows in a row only the second counts |
| ErrorReducer.ShowRetainsConfig | template/src/redux/reducers/errorReducer.ts:36 | showing the screen retains the payload's request config |
| ErrorReducer.HideKeepsButtonLabel | template/src/redux/reducers/errorReducer.ts:39-46 | hide is the initial state except for the button label, which survives |
| ErrorReducer.HideIdempotent | template/src/redux/reducers/errorReducer.ts:39-46 | a second hide changes nothing |
| ToastReducer.ToastSlice.constructor | template/src/redux/reducers/toastReducer.ts:11-17 | hidden success toast, empty texts, 3000 ms |
| ToastReducer.ToastSlice.ShowToast | template/src/redux/reducers/toastReducer.ts:30-38 | shown, with type, message and duration copied and a missing title read as '' |
| ToastReducer.ToastSlice.HideToast | template/src/redux/reducers/toastReducer.ts:39-43 | only the status is cleared |
| ToastReducer.InitialToast | template/src/redux/reducers/toastReducer.ts:11-17 | the initial toast is a hidden success toast of 3000 ms with empty texts |
| ToastReducer.ShowCopiesPayload | template/src/redux/reducers/toastReducer.ts:30-38 | after show, every field comes from the payload and the title defaults to '' |
| ToastReducer.HideOnlyClearsStatus | template/src/redux/reducers/toastReducer.ts:39-43 | hide leaves the type, texts and duration of the last toast in place |
| ToastReducer.HideIdempotent | template/src/redux/reducers/toastReducer.ts:39-43 | a second hide changes nothing |
| PopupReducer.PopupSlice.constructor | template/src/redux/reducers/popupReducer.ts:10-15 | hidden popup with empty texts |
| PopupReducer.PopupSlice.ShowPopup | template/src/redux/reducers/popupReducer.ts:27-34 | shown with title and label copied; a falsy press type becomes '' |
| PopupReducer.PopupSlice.HidePopup | template/src/redux/reducers/popupReducer.ts:35-42 | every field back to its initial value |
| PopupReducer.ShowCopiesPayload | template/src/redux/reducers/popupReducer.ts:27-34 | after show the popup displays the payload, with '' for a missing or empty press type |
| PopupReducer.HideIsInitial | template/src/redux/reducers/popupReducer.ts:35-42 | hide from any state gives the initial state |
| PopupReducer.HideIdempotent | template/src/redux/reducers/popupReducer.ts:35-42 | a second hide changes nothing |
| LoaderReducer.LoaderSlice.constructor | template/src/redux/reducers/loaderReducer.ts:9-11 | the loader starts hidden |
| LoaderReducer.LoaderSlice.ShowLoader | template/src/redux/reducers/loaderReducer.ts:18-20 | the loader is shown |
| LoaderReducer.LoaderSlice.HideLoader | template/src/redux/reducers/loaderReducer.ts:21-23 | the loader is hidden |
| LoaderReducer.ActionDeterminesState | template/src/redux/reducers/loaderReducer.ts:17-24 | the state after an action depends only on the action, each action is idempotent, and the loader shows exactly after `showLoader` |
| LangReducer.LangSlice.constructor | template/src/redux/reducers/langReducer.ts:9-11 | no language is selected at first ('') |
| LangReducer.LangSlice.SelectLang | template/src/redux/reducers/langReducer.ts:21-23 | the selected language becomes the payload's `prevLang` |
| LangReducer.LangSlice.DefaultLang | template/src/redux/reducers/langReducer.ts:24-26 | the selected language becomes 'en' |
| LangReducer.ActionsIdempotent | template/src/redux/reducers/langReducer.ts:21-26 | the state after an action depends only on the action, and each action is idempotent |
| ReduxStore.Store.Dispatch | template/src/network/middleware/Network_Manager.ts:83 | a dispatched action changes its own slice as its case reducer says, leaves the others alone, and is appended to the log |
| NetworkSpec.Defaulted | template/src/network/middleware/Network_Manager.ts:75-76 | the `= {}` defaults of `apiParams` and `apiBody` replace an omitted argument only, not `null` |
| NetworkSpec.ImageParts | template/src/network/middleware/Network_Manager.ts:153-155 | one `profileImages` form part per array element, in order |
| NetworkMiddleware.BuildConfig | template/src/network/middleware/Network_Manager.ts:101-181 | the imperative request building (header map updated, token put in the body, image parts appended in a loop) yields exactly the specified request, or the TypeError it throws |
| NetworkMiddleware.HandleFailure | template/src/network/middleware/Network_Manager.ts:191-276 | the error half dispatches the specified failure actions and returns the specified response |
| NetworkMiddleware.HandleDelivered | template/src/network/middleware/Network_Manager.ts:279-329 | the success half dispatches the specified actions and returns the specified response, or the decryption-failure response |
| NetworkMiddleware.HandleSession | template/src/network/middleware/Network_Manager.ts:242-255 | logout and, unless skipped, the session-expired toast, exactly on code 401 while authenticated |
| NetworkMiddleware.NetworkManager | template/src/network/middleware/Network_Manager.ts:73-340 | one call returns the planned outcome, sends the planned request, and leaves the store as if the planned actions were dispatched in order |
| RequestProperties.BuildRequestFails | template/src/network/middleware/Network_Manager.ts:117-153 | building throws (a TypeError) exactly when the parameters are null, when the body cannot take the token while authenticated, or when the register branch finds form data whose `profileImages` is not an array |
| RequestProperties.ParamsUrl | template/src/network/middleware/Network_Manager.ts:117-122 | the URL is exactly base URL + path + `?reqData=` + the ciphertext of the parameters' JSON when the parameters have a key, and base URL + path otherwise |
| RequestProperties.ParamsInUrl | template/src/network/middleware/Network_Manager.ts:117-122 | the URL starts with base URL and path and equals it exactly when the parameters have no key; a server that reads the query text unescaped and inverts the cipher and JSON gets the parameters back |
| RequestProperties.RequestHeaders | template/src/network/middleware/Network_Manager.ts:107-127 | the content type is multipart exactly when form data is truthy, and `Authorization` is present, holding the bare token, exactly when authenticated |
| RequestProperties.RequestPayload | template/src/network/middleware/Network_Manager.ts:137-175 | GET requests carry no data; the register route always sends a form, the update-profile route a form exactly when form data has keys, and every other route `{ reqData }` |
| RequestProperties.ServerRecoversBody | template/src/network/middleware/Network_Manager.ts:137-173 | whichever payload shape is chosen, the `reqData` a server finds decrypts and parses back to the body with the token added when authenticated |
| ResponseProperties.RetainedConfigIsResent | template/src/network/middleware/Network_Manager.ts:96-99 | with a retained config the call re-sends it, ignoring its own endpoint, parameters and body |
| ResponseProperties.FreshRequestWhenNoneRetained | template/src/network/middleware/Network_Manager.ts:101-188 | with an empty slot the call sends the request it builds, or sends nothing when building throws |
| ResponseProperties.RequestFailsWithTypeError | template/src/network/middleware/Network_Manager.ts:117-153 | every way building can fail is a TypeError |
| ResponseProperties.RejectsOnlyOnBuildFailure | template/src/network/middleware/Network_Manager.ts:96-188 | the promise rejects exactly when a fresh request could not be built, and then nothing is dispatched or sent; otherwise it resolves |
| ResponseProperties.OfflineFailureRetainsConfig | template/src/network/middleware/Network_Manager.ts:191-213 | a failure while offline, without `skipErrorScreen`, only shows the offline error screen retaining the sent config, and resolves to the no-internet response |
| ResponseProperties.OnlineFlagMattersOnlyOnFailure | template/src/network/middleware/Network_Manager.ts:191-196 | the connectivity flag changes nothing when the transport delivered or when the error screen is skipped |
| ResponseProperties.FailureResponse | template/src/network/middleware/Network_Manager.ts:215-275 | a failure resolves with `success` false, truthy code and message, and `error` the error's string form |
| ResponseProperties.FailureCode | template/src/network/middleware/Network_Manager.ts:215-240 | the code, message and data of a failure for each of: no response, an undecodable response, a decoded response |
| ResponseProperties.SessionActionsFacts | template/src/network/middleware/Network_Manager.ts:242-255 | the 401 handling is at most a logout and a toast and never touches the error screen |
| ResponseProperties.LogoutExactlyOn401 | template/src/network/middleware/Network_Manager.ts:242-316 | logout is dispatched exactly when the caller was authenticated and the resolved code is 401, and at most once |
| ResponseProperties.AuthAfterCall | template/src/network/middleware/Network_Manager.ts:242-316 | after a call the auth slice is logged out if logout was dispatched, and unchanged otherwise |
| ResponseProperties.SlotAfterCall | template/src/network/middleware/Network_Manager.ts:196-301 | after a call the retry slot is empty if the screen was hidden, holds the sent config if the offline screen was shown, and is unchanged otherwise |
| ResponseProperties.RetainedUntilHidden | template/src/network/middleware/Network_Manager.ts:96-301 | a retained config stays in the slot until a 200/201 response hides the error screen |
| ResponseProperties.OfflineThenRetry | template/src/network/middleware/Network_Manager.ts:97-213 | after an offline failure the next call, whatever it asks for, re-sends the same request |
| ResponseProperties.HideExactlyOnOk | template/src/network/middleware/Network_Manager.ts:294-301 | the error screen is hidden exactly when a 200/201 response was delivered and decoded |
| ResponseProperties.SuccessOnlyOnOk | template/src/network/middleware/Network_Manager.ts:282-329 | a non-false `success` needs a decoded 200/201; other statuses give `success` false and null data; an undecodable body gives the decryption-failure response and no actions |
| ResponseProperties.SuccessOnOk | template/src/network/middleware/Network_Manager.ts:294-296 | on a decoded 200/201 response `success` is true exactly when the decrypted `status` is missing, null or true, and equals that status whenever it is not nullish |
| ResponseProperties.SkipToastSilences | template/src/network/middleware/Network_Manager.ts:245-306 | with `skipToast` no toast is dispatched, while logout still is |
| ResponseProperties.ToastsNeverEmpty | template/src/network/middleware/Network_Manager.ts:246-266 | every toast a call dispatches is an error toast with a truthy message |
| ResponseProperties.FailureToasts | template/src/network/middleware/Network_Manager.ts:242-267 | on an online failure the session toast appears exactly on 401 while authenticated and not skipped, the error toast exactly on any other code when not skipped, and an unauthenticated 401 dispatches nothing |
| QueryKeys.Key | template/src/network/networkCache/queryKeys.ts:4-18 | each key is its group prefix ('auth' or 'app') followed by the query's name |
| QueryKeys.AllIsGroupPrefix | template/src/network/networkCache/queryKeys.ts:4-18 | a group's `all` key is a prefix of exactly that group's keys |
| QueryKeys.KeysDistinct | template/src/network/networkCache/queryKeys.ts:5-18 | the nine keys are pairwise distinct |
| QueryClient.RetryDelay | template/src/network/networkCache/queryClient.ts:45 | the delay is between 1 and 30 seconds, and is either the cap or `1000 * 2^i` |
| QueryClient.RetryDelayMonotone | template/src/network/networkCache/queryClient.ts:45 | the delay never decreases with the attempt index |
| QueryClient.RetryDelaySchedule | template/src/network/networkCache/queryClient.ts:45 | the delay is `1000 * 2^i` for attempts 0-4 and 30000 from attempt 5 on |
| QueryClient.OnlineFlag | template/src/network/networkCache/queryClient.ts:17 | online implies both monitor fields are truthy |
| QueryClient.OnlineOnlyWhenBothTrue | template/src/network/networkCache/queryClient.ts:15-19 | with boolean, null or absent fields, online exactly when both are `true`; unknown or missing reachability is offline |
| QueryClient.HandleError | template/src/network/networkCache/queryClient.ts:22-36 | at most one action; none exactly when the error's code is 401; otherwise an error toast titled 'Error', 3000 ms, with a truthy message |
| QueryClient.HandleErrorMessage | template/src/network/networkCache/queryClient.ts:31 | the toast shows the error's message if truthy and 'Something went wrong' otherwise; a missing error still raises a toast |
| QueryClient.HandleErrorEffect | template/src/network/networkCache/queryClient.ts:26-35 | after the handler only the toast slice can change; it shows the error toast unless the code was 401 |
| QueryClient.TotalBackoff | template/src/network/networkCache/queryClient.ts:44-45 | `n` retries wait at most `n` times 30 seconds in total |
| QueryClient.DefaultBackoff | template/src/network/networkCache/queryClient.ts:44-45 | a failing query is retried twice, after 1 s and then 2 s, and so fails for good after 3 s of back-off |
| Validators.Email | template/src/common/hooks/validators/useValidators.ts:2-16 | the status is true exactly when the message is empty |
| Validators.EmailValidIffPattern | template/src/common/hooks/validators/useValidators.ts:3-15 | an e-mail is accepted exactly when it matches the local@domain pattern, whose final label has two or more letters; the emptiness and space checks only choose the message |
| Validators.PatternHasNoSpace | template/src/common/hooks/validators/useValidators.ts:5-8 | no string the pattern accepts holds a space or is blank, so those checks never reject a well-formed address |
| Validators.PhoneNumber | template/src/common/hooks/validators/useValidators.ts:17-38 | the status is true exactly when the message is empty |
| Validators.PhoneNumberRules | template/src/common/hooks/validators/useValidators.ts:18-37 | accepted exactly when there are 10 characters, all digits, the first 6-9, and not all the same |
| Validators.PhoneNumberRange | template/src/common/hooks/validators/useValidators.ts:18-37 | an accepted number reads as a value from 6000000000 to 9999999999 |
| Validators.Password | template/src/common/hooks/validators/useValidators.ts:39-53 | the status is true exactly when the message is empty |
| Validators.PasswordRules | template/src/common/hooks/validators/useValidators.ts:40-52 | accepted exactly when longer than 8 characters and holding an upper-case letter, a digit and a listed special character |
| Validators.PasswordMessageMismatch | template/src/common/hooks/validators/useValidators.ts:40-41 | the 8-character password "Abcdef1!" meets every other rule yet is rejected with the "at least 6 characters" message |
| Validators.PasswordAsStated | template/src/common/hooks/validators/useValidators.ts:40-41 | the status is true exactly when the message is empty |
| Validators.PasswordAsStatedConsistent | template/src/common/hooks/validators/useValidators.ts:40-52 | with the length rule the message states, the length message appears exactly below six characters and every password the written rule accepts stays accepted |
| Validators.Otp | template/src/common/hooks/validators/useValidators.ts:54-62 | the downward scan accepts exactly when every entry converts to a number, with the OTP message otherwise |
| Validators.SlotIsNumeric | template/src/common/hooks/validators/useValidators.ts:56 | '' and a single digit convert to numbers |
| Validators.NumericAccepts | template/src/common/hooks/validators/useValidators.ts:56 | `Number` accepts padded decimals, signed Infinity and hexadecimal literals |
| Validators.NumericRejects | template/src/common/hooks/validators/useValidators.ts:56 | `Number` rejects trailing letters and a bare `0x` |
| OtpInput.Chars | template/src/common/components/common-input/CommonOtpInput.tsx:113 | `split('')` gives one box per character, in order |
| OtpInput.LastChar | template/src/common/components/common-input/CommonOtpInput.tsx:179 | at most one character, the text's last when there is one |
| OtpInput.NeverShowsError | template/src/common/components/common-input/CommonOtpInput.tsx:159-160 | because validity is defined as being filled, the error style is never shown |
| OtpInput.TypingWritesOneDigit | template/src/common/components/common-input/CommonOtpInput.tsx:85-89 | typing writes only the box typed in, only a single digit, and nothing at all unless exactly one digit remains |
| OtpInput.TypingMovesFocus | template/src/common/components/common-input/CommonOtpInput.tsx:91-99 | after a digit, focus moves to the next box, or stays on the last |
| OtpInput.PasteFills | template/src/common/components/common-input/CommonOtpInput.tsx:110-121 | a paste is accepted exactly when its digits number `otpLength`; the boxes then hold those digits in order, are filled, and focus is on the last box; otherwise nothing changes |
| OtpInput.BackspaceClears | template/src/common/components/common-input/CommonOtpInput.tsx:130-143 | backspace clears a filled box; on an empty box after the first it clears and focuses the previous one; on an empty first box nothing changes |
| OtpInput.BackspaceUndoesTyping | template/src/common/components/common-input/CommonOtpInput.tsx:83-143 | typing a digit into an empty box and pressing backspace in the next box restores the boxes and the focus |
| OtpInput.ChangeKeepsClean | template/src/common/components/common-input/CommonOtpInput.tsx:83-181 | every handler keeps each box empty or a single digit |
| OtpInput.CleanPassesValidator | template/src/common/hooks/validators/useValidators.ts:54-62 | boxes kept clean always pass the OTP validator, partly filled or not |
| OtpInput.ChangeTextResult | template/src/common/components/common-input/CommonOtpInput.tsx:174-181 | a change is a paste when its digits fill the boxes, and otherwise typing the text's last character |
| OtpInput.BlurKeepsFocus | template/src/common/components/common-input/CommonOtpInput.tsx:66-71 | the blur handler keeps the first render's `otp`, so with a non-empty initial `otp` it never clears the focus |
| OtpInput.FocusTouches | template/src/common/components/common-input/CommonOtpInput.tsx:61-64 | focusing a box focuses it and marks the component touched, leaving the boxes alone |
| OtpInput.OtpBoxes.constructor | template/src/common/components/common-input/CommonOtpInput.tsx:27-34 | the buffer starts as the `otp` prop, with no box focused and not touched |
| OtpInput.OtpBoxes.UpdateExternalOtp | template/src/common/components/common-input/CommonOtpInput.tsx:76-78 | the parent receives a copy of the buffer |
| OtpInput.OtpBoxes.HandleTextChange | template/src/common/components/common-input/CommonOtpInput.tsx:83-103 | in place on the same buffer, the state becomes the typing transition |
| OtpInput.OtpBoxes.HandleFullOtpChange | template/src/common/components/common-input/CommonOtpInput.tsx:108-123 | the state and result are the paste transition; an accepted paste installs a fresh buffer |
| OtpInput.OtpBoxes.HandleKeyPress | template/src/common/components/common-input/CommonOtpInput.tsx:128-148 | in place on the same buffer, the state becomes the key-press transition |
| OtpInput.OtpBoxes.OnChangeText | template/src/common/components/common-input/CommonOtpInput.tsx:174-181 | the state becomes the change transition: paste first, otherwise the last character typed |
| OtpInput.OtpBoxes.HandleInputFocus | template/src/common/components/common-input/CommonOtpInput.tsx:61-64 | the focus transition, with the buffer and the parent copy unchanged |
| OtpInput.OtpBoxes.HandleInputBlur | template/src/common/components/common-input/CommonOtpInput.tsx:66-71 | the blur transition, with the buffer and the parent copy unchanged |
| OtpInput.OtpBoxes.IsOtpValid | template/src/common/components/common-input/CommonOtpInput.tsx:37-38 | valid exactly when every entry of the parent's `otp` has one character |
| UtilsFunc.JsArray.Set | template/src/utils/utils-func/UtilsFunc.ts:99 | `a[i] = x` overwrites slot `i`, or appends when `i` is the length |
| UtilsFunc.Overwrite | template/src/utils/utils-func/UtilsFunc.ts:97-102 | the result is as long as the longer array, holds `data2` in its first slots and `data1`'s own values beyond them |
| UtilsFunc.GetUpdateArr | template/src/utils/utils-func/UtilsFunc.ts:97-102 | the loop overwrites `data1` in place with `data2`'s elements and returns `data1` itself |
| UtilsFunc.OverwriteIdempotent | template/src/utils/utils-func/UtilsFunc.ts:97-102 | repeating the update changes nothing; updating an array with its own contents leaves it alone; a longer `data2` replaces `data1` entirely |
| UtilsFunc.ItemMatches | template/src/utils/utils-func/UtilsFunc.ts:89-90 | when the callback does not throw, an item matches exactly when its first or its last name, lower-cased, contains the search |
| UtilsFunc.Filter | template/src/utils/utils-func/UtilsFunc.ts:87-91 | the filter succeeds exactly when the callback throws on no item |
| UtilsFunc.FilterSound | template/src/utils/utils-func/UtilsFunc.ts:87-91 | the result is an order-preserving selection of the data, and every kept item matches |
| UtilsFunc.FilterExact | template/src/utils/utils-func/UtilsFunc.ts:87-91 | a filter that does not throw keeps exactly the items of the data that match |
| UtilsFunc.FilterComplete | template/src/utils/utils-func/UtilsFunc.ts:87-91 | every matching item is kept |
| UtilsFunc.FilterAppend | template/src/utils/utils-func/UtilsFunc.ts:87-91 | filtering a concatenation is the concatenation of the filtered parts |
| UtilsFunc.FilterSingle | template/src/utils/utils-func/UtilsFunc.ts:87-91 | a single item is kept exactly when it matches |
| UtilsFunc.SearchDashboardData | template/src/utils/utils-func/UtilsFunc.ts:85-95 | a missing or empty search returns the data unchanged; any result is an order-preserving selection of the data; for a non-empty search it holds exactly the items whose first or last name contains the lower-cased search |
| UtilsFunc.SearchIgnoresCase | template/src/utils/utils-func/UtilsFunc.ts:89-90 | searches that agree once lower-cased give the same result |
| UtilsFunc.GetCurrentQuarterDate | template/src/utils/utils-func/UtilsFunc.ts:67-83 | a result exactly for months 1-12, with one of Q1-Q4 and the year as text |
| UtilsFunc.QuarterMonths | template/src/utils/utils-func/UtilsFunc.ts:71-82 | quarter `q` is given for exactly the months `3q-2` to `3q` |
| UtilsFunc.GetConvertedString | template/src/utils/utils-func/UtilsFunc.ts:104-117 | a string that is not a key comes back unchanged; a key with two translations gives one of them |
| UtilsFunc.ConvertedByLanguage | template/src/utils/utils-func/UtilsFunc.ts:108-113 | 'en' selects the first translation; any other language, including the initial '', selects the second |

## Findings

| source | as written | input that shows it | evidently intended | confidence | as-written member | corrected member |
|---|---|---|---|---|---|---|
| template/src/common/hooks/validators/useValidators.ts:40-41 | passwords of 8 characters or fewer are rejected, with a message asking for at least 6 | "Abcdef1!" (8 characters, upper-case, digit, special) is rejected with "Password should be at least 6 characters long." | the length rule and its message agree; the message states six characters | low, not executed: the authors may instead have meant the rule and mistyped the message | Validators.PasswordMessageMismatch | Validators.PasswordAsStatedConsistent |

`Validators.Password` keeps the rule as written, because it is what the app enforces. `Validators.PasswordAsStated` is the rule the message describes.

## Left out

- Encryption internals are not modelled. AES-256-CBC, base64 and `Buffer` in `encryptData`/`decryptData` are opaque functions of `Platform`. `JSON.stringify` and `JSON.parse` are opaque too. Round-trip facts are hypotheses of the lemmas that need them.
- The HTTP client, timers and `async` scheduling are not modelled.
  - A request's result is a `Transport` value given as a parameter.
  - The 10 s timeout is only a constant of the config.
  - The blur handler's 50 ms delay is dropped.
  - Concurrent calls are not modelled.
- Console logging is left out.
- The connectivity monitors are left out. `onlineManager.isOnline()` and the NetInfo listener become plain parameters.
- NetworkMiddleware.NetworkManager: the unreachable fallback return is not modelled. It is at template/src/network/middleware/Network_Manager.ts:332-339. A response the transport delivered is always an object, so it is truthy.
- NetworkMiddleware.NetworkManager: a call with `api` undefined is not modelled. `api` is always an endpoint of the registry here. Reading `api.endpoint` on undefined would throw.
- NetworkMiddleware.NetworkManager: aliasing is not modelled.
  - The body object is modelled as a value.
  - In the source, `body['token'] = …` also mutates the caller's object.
  - Object properties are a map, so their order is not modelled. `body['token'] = …` (Network_Manager.ts:138) appends the key last, and the ciphertext of the body depends on that order; no property here depends on it.
  - In the source, the retained config is the same object as the one sent.
- `Constant`, `useTryCatch`, `HTTP_METHODS`, `LangList` and the store set-up are not part of this model. The base URL and the translation table are parameters. Thrown errors become `Thrown` values. The five verbs are a datatype.
- The theme slice and persistence of the store are not part of this model.
- Numbers are integers, not IEEE doubles. Timeouts, statuses and codes are whole numbers. `Number(...)` is modelled only as far as "is it NaN".
- Strings are sequences of characters, not UTF-16 code units. `toLowerCase` folds only the ASCII letters. This matters only outside the digits and ASCII letters the validators and the search look at.
- UtilsFunc.SearchDashboardData: the search is an optional string. A search of another type is not modelled. It would be a runtime type error in the source.
- UtilsFunc.SearchDashboardData: the fresh copy in the empty-search branch is the same value as the data. Object identity of the copy is not modelled.
- UtilsFunc.GetUpdateArr: writes always land at most one past the end. Holes from writing further out cannot occur and are not modelled.
- OtpInput.OtpBoxes.constructor: requires the `otp` prop to have at least `otpLength` entries, as every screen passes. With a shorter prop the source would grow the array on a write past its end.
- OtpInput.OtpBoxes.constructor: the buffer starts as a copy of the prop. In the source it is the parent's own array until the first update. The first in-place write therefore also changes the parent's previous state array, and that is not modelled.
- OtpInput.OtpBoxes: moving the native input focus (`focus()`/`blur()` on the text inputs) and `e.preventDefault()` are left out. Only the `focusedIndex` state is modelled.
- OtpInput.OtpBoxes: `onValidationChange` is not modelled as a callback. `IsOtpValid` is the value it would receive.
- Styles and rendering are not modelled, beyond the error-style condition.
- DefaultBackoff: states the back-off of queries only. Mutations set `retry: 1` and `networkMode: 'online'` but no `retryDelay`, so their delay is TanStack Query's default, which is not part of this model. `staleTime` and `gcTime` are recorded as constants and nothing is proved about them.
- RequestProperties.ParamsInUrl: `ServerQuery` reads the text after `?reqData=` as it stands. The base64 ciphertext goes into the query without `encodeURIComponent`, so a server that form-decodes the query would read a `+` in it as a space; that decoding is not modelled.
- NetworkMiddleware.NetworkManager: the connectivity flag is the value read before sending. A change of connectivity while the request is in flight is not seen, as in the source.
- QueryClient: only the option values that the back-off and network-mode properties use are modelled. `refetchOnWindowFocus`, `refetchOnReconnect` and TanStack Query's own scheduling are left out.
