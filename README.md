# Pature core in Dafny

Pature is an Android app for pet owners: a swipe-card feed of animals, event and chat
lists, search, and screens for the owner's profile and animals. This project models
its core logic in Dafny and proves what that logic promises. The core covers these parts:

- **Session handling.** `AuthStore` models the credential store `AuthStorage`, a string
  map kept as a field. `TokenAuth` models `TokenAuthenticator.authenticate`, the 401 handler
  that refreshes or rejects a failed request (Bearer tokens as in section 2.1 of RFC 6750).
  `AuthRepo` models the storage effects of `AuthRepository` and its error-body parsing.
  `ApiClientModel` models the header interceptors and the `ApiClient` singleton.
- **Card feed.** `StackLayout` models `PatureStackLayout`, the three-card stack, and proves
  that its children are always the window of `topPosition`. `HomeFeed` models the paging and
  de-duplication of `HomeFragment`. `CardMapper` and `MyAnimals` model the title and photo
  choice, and `AnimalRepo` models request defaulting and result mapping.
- **List screens.** `Events`, `Chats` and `Search` model filtering, sorting, sectioning
  and the filter sheets. `Sorting` is the insertion sort they are specified with, and
  `Filtering` is the filtering loop they share.
- **Forms.** The remaining modules model the validators and normalisers of the
  animal form, profile-field editor, profile screen, login, register, forgot-password
  and change-password sheets. They also model the privacy sheets, the onboarding step
  counter and the HTTP-error mapping of the profile and address repositories.

Some support modules are shared. `Wrappers` holds `Option`. `Text` holds Java's `trim`,
`isEmpty`, `contains`, `toLowerCase`, `Integer.parseInt` and `String.valueOf` on strings.
`Http` holds requests, headers and responses. `Classify` models the if/else-if chains of
`contains` tests that turn error messages into UI outcomes.

Objects that the app updates in place are classes. Their methods are proved against
specification functions: the activities, fragments and sheets, the stack layout, the
storage and the repositories' caches. Pure helpers are functions with lemmas.

Three kinds of input are parameters of the model:
- the results of network calls, as outcome datatypes;
- the date and time (`today`, `now`, a date parser);
- Android's e-mail pattern (`isEmail`).

## Model

| member | source | states |
|---|---|---|
| TokenAuth.ChainLength | app/src/main/java/app/belqax/pature/data/network/TokenAuthenticator.java:191-199 | a response chain counts at least one response, and exactly one when there is no prior response |
| TokenAuth.ResponseCount | app/src/main/java/app/belqax/pature/data/network/TokenAuthenticator.java:191-199 | the `while` loop over `priorResponse` returns 1 plus the number of prior responses |
| TokenAuth.ExtractBearerToken | app/src/main/java/app/belqax/pature/data/network/TokenAuthenticator.java:201-211 | a token exactly when the Authorization header is present and starts with "Bearer "; it is then the trimmed remainder |
| TokenAuth.ExtractWithBearer | app/src/main/java/app/belqax/pature/data/network/TokenAuthenticator.java:201-211 | reading back a request re-issued with "Bearer " + token yields the trimmed token |
| TokenAuth.HandleRefreshOutcome | app/src/main/java/app/belqax/pature/data/network/TokenAuthenticator.java:144-184 | a thrown refresh gives up with storage untouched; the request is retried exactly when the reply is 2xx with a body holding two non-blank tokens, which are then stored and the new access token used; a 401 reply clears the session; every other reply gives up with storage untouched |
| TokenAuth.DecideLocked | app/src/main/java/app/belqax/pature/data/network/TokenAuthenticator.java:115-189 | under the lock the stale test is repeated on storage as it is then; a non-stale request with a missing or blank stored refresh token or login gives up with storage untouched; otherwise the stored refresh token and login are sent and the refresh reply decides the outcome; without a refresh storage is untouched; a retry always carries the stored non-blank access token |
| TokenAuth.Decide | app/src/main/java/app/belqax/pature/data/network/TokenAuthenticator.java:89-189 | a chain of two or more responses, or a 401 from login, refresh or logout, gives up with storage untouched; any other response goes through the locked decision with the request's bearer token, so it gives up when the refresh token or login is missing or blank and otherwise sends them and follows the refresh reply; storage only changes when a refresh was sent, and then it is either cleared or holds the non-blank access token the retried request carries |
| TokenAuth.StaleRetriesWithStoredToken | app/src/main/java/app/belqax/pature/data/network/TokenAuthenticator.java:101-113 | when the stored access token is non-blank and differs from the request's bearer token, the request is re-sent with the stored token, nothing is refreshed and nothing stored |
| TokenAuth.ClearedOnlyOnRefresh401 | app/src/main/java/app/belqax/pature/data/network/TokenAuthenticator.java:176-181 | a give-up that changes storage was caused by a 401 reply to a refresh call that was sent, and clears exactly the session keys |
| TokenAuth.LockedSendsRefresh | app/src/main/java/app/belqax/pature/data/network/TokenAuthenticator.java:128-146 | with a non-stale request and a non-blank stored refresh token and login, the refresh call carries exactly those two values |
| TokenAuth.CurrentTokenGoesToRefresh | app/src/main/java/app/belqax/pature/data/network/TokenAuthenticator.java:101-146 | a first 401 on a request that carries the stored (trimmed) access token is not stale and leads to a refresh call with the stored refresh token and login |
| TokenAuth.TokenAuthenticator.constructor | app/src/main/java/app/belqax/pature/data/network/TokenAuthenticator.java:46-50 | the authenticator works on the storage it is given |
| TokenAuth.TokenAuthenticator.Authenticate | app/src/main/java/app/belqax/pature/data/network/TokenAuthenticator.java:89-189 | the retried request, the storage afterwards and the refresh call made are those `Decide` gives for the storage before the call |
| TokenAuth.TokenAuthenticator.RefreshUnderLock | app/src/main/java/app/belqax/pature/data/network/TokenAuthenticator.java:115-189 | the locked section's retry, storage and refresh call are those `DecideLocked` gives for storage as it is once the lock is held |
| AuthStore.Lookup | app/src/main/java/app/belqax/pature/data/storage/AuthStorage.java:31-33 | `getString(key, null)`: a value exactly when the key is stored, and then the stored value |
| AuthStore.Put | app/src/main/java/app/belqax/pature/data/storage/AuthStorage.java:39-43 | `putString` sets one key (a null value removes it) and leaves every other key as it was |
| AuthStore.ClearSession | app/src/main/java/app/belqax/pature/data/storage/AuthStorage.java:49-55 | `clearAll` removes the access token, refresh token and login and keeps every other key, the device id included |
| AuthStore.StoreTokens | app/src/main/java/app/belqax/pature/data/storage/AuthStorage.java:24-29 | `saveTokens` sets both tokens (null removes) and leaves every other key as it was |
| AuthStore.DeviceIdSurvivesSession | app/src/main/java/app/belqax/pature/data/storage/AuthStorage.java:49-55 | saving tokens and login and then clearing the session leaves the device id as it was |
| AuthStore.ClearSessionIdempotent | app/src/main/java/app/belqax/pature/data/storage/AuthStorage.java:49-55 | clearing twice is the same as clearing once |
| AuthStore.AuthStorage.constructor | app/src/main/java/app/belqax/pature/data/storage/AuthStorage.java:20-22 | the storage starts from the preferences it is opened on |
| AuthStore.AuthStorage.SaveTokens | app/src/main/java/app/belqax/pature/data/storage/AuthStorage.java:24-29 | afterwards the getters return the two tokens given; login and device id are unchanged |
| AuthStore.AuthStorage.SaveLogin | app/src/main/java/app/belqax/pature/data/storage/AuthStorage.java:39-43 | afterwards `getLogin` returns the login given; tokens and device id are unchanged |
| AuthStore.AuthStorage.ClearAll | app/src/main/java/app/belqax/pature/data/storage/AuthStorage.java:49-55 | afterwards both tokens and the login are gone and the device id is unchanged |
| AuthStore.AuthStorage.GetOrCreateDeviceId | app/src/main/java/app/belqax/pature/data/storage/AuthStorage.java:57-67 | a stored non-empty id is returned and nothing is written; otherwise the generated id is stored and returned; either way the stored id afterwards is the returned one |
| AuthRepo.ClearedIsLoggedOut | app/src/main/java/app/belqax/pature/data/repository/AuthRepository.java:59-64 | after the session is cleared `isLoggedIn` is false |
| AuthRepo.IsLoggedIn | app/src/main/java/app/belqax/pature/data/repository/AuthRepository.java:59-64 | logged in exactly when both tokens are stored and non-empty; a blank token still counts, since nothing is trimmed |
| AuthRepo.StoredTokensLogIn | app/src/main/java/app/belqax/pature/data/repository/AuthRepository.java:59-64 | after two non-empty tokens are saved `isLoggedIn` is true |
| AuthRepo.SafeMessage | app/src/main/java/app/belqax/pature/data/repository/AuthRepository.java:343-349 | a missing or blank throwable message becomes "неизвестная ошибка"; any other message is kept as it is; the result is never blank |
| AuthRepo.ExtractErrorMessage | app/src/main/java/app/belqax/pature/data/repository/AuthRepository.java:356-398 | no error body, an unreadable or empty one, or one that is not JSON gives the fallback; a readable non-empty body whose JSON carries a `detail` message gives exactly that message, and any result other than the fallback is that message |
| AuthRepo.DetailStringIsMessage | app/src/main/java/app/belqax/pature/data/repository/AuthRepository.java:380-382 | a JSON object with a primitive `detail` gives its text, whatever other members it has |
| AuthRepo.DetailObjectPrefersMessage | app/src/main/java/app/belqax/pature/data/repository/AuthRepository.java:384-394 | a JSON object whose `detail` is an object gives that object's primitive `message`, else its primitive `code`, else the fallback, whatever other members the root has |
| AuthRepo.DetailNullFallsBack | app/src/main/java/app/belqax/pature/data/repository/AuthRepository.java:374-394 | a missing, null or array `detail` gives the fallback |
| AuthRepo.AuthRepository.constructor | app/src/main/java/app/belqax/pature/data/repository/AuthRepository.java:50-54 | the repository works on the storage it is given |
| AuthRepo.AuthRepository.Login | app/src/main/java/app/belqax/pature/data/repository/AuthRepository.java:70-101 | a 2xx reply with a body stores both tokens and the login and reports success; any other reply reports the extracted error message with "Ошибка авторизации: <code>" as fallback; a failure reports the network message; neither error path touches storage |
| AuthRepo.AuthRepository.ResetPassword | app/src/main/java/app/belqax/pature/data/repository/AuthRepository.java:230-258 | a 2xx reply clears the session and reports success; an error reply or a failure reports its message and leaves storage untouched |
| AuthRepo.AuthRepository.Logout | app/src/main/java/app/belqax/pature/data/repository/AuthRepository.java:263-289 | storage is cleared on every path and the user is logged out; the logout call is made exactly when a non-empty refresh token was stored, and carries it; only a failed call reports an error |
| AuthRepo.AuthRepository.RefreshTokens | app/src/main/java/app/belqax/pature/data/repository/AuthRepository.java:297-337 | the refresh is sent exactly when a non-empty refresh token and login are stored, and it carries both; without them nothing changes and the no-session error is reported; once sent, a 2xx reply with a body stores the new tokens and every other reply or failure clears the session |
| ApiClientModel.WithDeviceHeaders | app/src/main/java/app/belqax/pature/data/network/ApiClient.java:41-58 | the five device headers are set to the device id, "android", manufacturer + " " + model, the OS version and "0.1.0-dev"; the path and every other header are kept |
| ApiClientModel.WithStoredBearer | app/src/main/java/app/belqax/pature/data/network/ApiClient.java:61-74 | without a stored access token, or with an empty one, the request goes out unchanged; otherwise only its Authorization header is set, to "Bearer " + token |
| ApiClientModel.AttachedTokenIsExtracted | app/src/main/java/app/belqax/pature/data/network/ApiClient.java:61-74 | the authenticator reads back from an attached header exactly the trimmed stored token |
| ApiClientModel.ApiClient.constructor | app/src/main/java/app/belqax/pature/data/network/ApiClient.java:36-96 | the interceptors work on the storage the client was built with |
| ApiClientModel.ApiClient.DeviceHeadersInterceptor | app/src/main/java/app/belqax/pature/data/network/ApiClient.java:41-58 | a device id is stored afterwards and is the one sent; a stored non-empty id is reused without writing; the request is `WithDeviceHeaders` of it |
| ApiClientModel.ApiClient.AuthHeaderInterceptor | app/src/main/java/app/belqax/pature/data/network/ApiClient.java:61-74 | the request is `WithStoredBearer` of the stored access token |
| ApiClientModel.ApiClientHolder.constructor | app/src/main/java/app/belqax/pature/data/network/ApiClient.java:31 | there is no instance before `init` |
| ApiClientModel.ApiClientHolder.Init | app/src/main/java/app/belqax/pature/data/network/ApiClient.java:98-102 | the first call builds a new client on the given storage; later calls keep the existing one |
| ApiClientModel.ApiClientHolder.GetInstance | app/src/main/java/app/belqax/pature/data/network/ApiClient.java:105-110 | before `init` an IllegalStateException with its message; afterwards the one instance |
| StackLayout.Run | app/src/main/java/app/belqax/pature/ui/PatureStackLayout.java:209-221 | the descending adapter positions hi-1 down to lo that the building loop adds, bottom card first |
| StackLayout.Window | app/src/main/java/app/belqax/pature/ui/PatureStackLayout.java:197-222 | the stack holds at most three cards, all from top .. count-1; it is empty exactly when top >= count, and otherwise its last (topmost) child is the top position |
| StackLayout.FilledBounded | app/src/main/java/app/belqax/pature/ui/PatureStackLayout.java:262-286 | filling never grows the stack past three cards |
| StackLayout.FilledCompletesWindow | app/src/main/java/app/belqax/pature/ui/PatureStackLayout.java:262-286 | filling a stack that holds the first k cards of the window yields the whole window |
| StackLayout.PopThenFillIsNextWindow | app/src/main/java/app/belqax/pature/ui/PatureStackLayout.java:416-436 | removing the top card and filling from the next position gives exactly the window of the next position |
| StackLayout.Without | app/src/main/java/app/belqax/pature/ui/PatureStackLayout.java:416-423 | `removeView` of a card: nothing changes when the card is not a child; otherwise one child fewer and no new child |
| StackLayout.TopOccursOnce | app/src/main/java/app/belqax/pature/ui/PatureStackLayout.java:416-423 | the card `onCardRemoved` takes out is the last child of the window and occurs nowhere below it |
| StackLayout.WithoutAppended | app/src/main/java/app/belqax/pature/ui/PatureStackLayout.java:419-420 | `removeView` of a card that was appended to a stack not holding it gives back that stack |
| StackLayout.RemoveTopThenFillIsNextWindow | app/src/main/java/app/belqax/pature/ui/PatureStackLayout.java:416-432 | removing the top card's view by identity, moving the top position on and filling gives exactly the window of the next position |
| StackLayout.PatureStackLayout.constructor | app/src/main/java/app/belqax/pature/ui/PatureStackLayout.java:46 | no adapter, top position 0, no children |
| StackLayout.PatureStackLayout.HasCards | app/src/main/java/app/belqax/pature/ui/PatureStackLayout.java:96-98 | true exactly when the stack has a child |
| StackLayout.PatureStackLayout.TopCard | app/src/main/java/app/belqax/pature/ui/PatureStackLayout.java:112-114 | the last child, which is the top adapter position; none when the stack is empty |
| StackLayout.PatureStackLayout.SecondCard | app/src/main/java/app/belqax/pature/ui/PatureStackLayout.java:190-195 | the child under the top one, at the next adapter position; none with fewer than two children |
| StackLayout.PatureStackLayout.SetAdapter | app/src/main/java/app/belqax/pature/ui/PatureStackLayout.java:82-86 | the adapter is stored, the top position reset to 0 and the children are the window from 0 |
| StackLayout.PatureStackLayout.BuildInitialStack | app/src/main/java/app/belqax/pature/ui/PatureStackLayout.java:197-222 | the loop adds the positions from min(count, top+3)-1 down to top, so the children are the window of the top position |
| StackLayout.PatureStackLayout.FillStackIfNeeded | app/src/main/java/app/belqax/pature/ui/PatureStackLayout.java:262-286 | the `while` loop adds the next positions at the bottom until there are three children or the adapter runs out; the result is `Filled` of the old children |
| StackLayout.PatureStackLayout.PopCard | app/src/main/java/app/belqax/pature/ui/PatureStackLayout.java:116-138 | in any state, including one left by a failed or stale `onCardRemoved`: with no child, or when removeView throws, nothing changes; otherwise the last child is returned and removed, the top position moves one on and the stack is refilled; from a valid stack the result is valid again and the popped card is the old top position |
| StackLayout.PatureStackLayout.PopCardInDirection | app/src/main/java/app/belqax/pature/ui/PatureStackLayout.java:140-170 | as `PopCard`, in any state, and the listener is told the pre-pop top position and the direction exactly when a card was removed |
| StackLayout.PatureStackLayout.OnCardRemoved | app/src/main/java/app/belqax/pature/ui/PatureStackLayout.java:416-436 | in any state: the listener always gets the old top position and the top position moves one on; the card is removed by identity (a no-op for a card no longer a child, the whole step a no-op when removeView throws) and the stack refilled; removing the top card of a valid stack keeps it valid |
| AnimalRepo.Success | app/src/main/java/app/belqax/pature/data/repository/AnimalRepository.java:410-412 | a successful result carrying the data and no error fields |
| AnimalRepo.HttpError | app/src/main/java/app/belqax/pature/data/repository/AnimalRepository.java:414-416 | a failed result carrying the HTTP code, message and error body |
| AnimalRepo.NetworkError | app/src/main/java/app/belqax/pature/data/repository/AnimalRepository.java:418-420 | a failed result carrying only the message, with no HTTP code or body |
| AnimalRepo.GetFeed | app/src/main/java/app/belqax/pature/data/repository/AnimalRepository.java:116-147 | the filters are passed as given, status is "active", limit and offset default to 50 and 0 when absent, and there is no ordering |
| AnimalRepo.GetPublic | app/src/main/java/app/belqax/pature/data/repository/AnimalRepository.java:149-184 | the same query with the ordering given, "created_at_desc" when absent |
| AnimalRepo.PublicIsFeedWithOrder | app/src/main/java/app/belqax/pature/data/repository/AnimalRepository.java:116-184 | `getPublic` without its ordering is exactly `getFeed` on the same arguments |
| AnimalRepo.LikeResult | app/src/main/java/app/belqax/pature/data/repository/AnimalRepository.java:189-200 | the body's result is "like" exactly for a like and "dislike" exactly for a dislike |
| AnimalRepo.UploadAnimalPhoto | app/src/main/java/app/belqax/pature/data/repository/AnimalRepository.java:206-234 | empty bytes are refused with their message and nothing is sent; the part is sent exactly when the bytes are non-empty and the trimmed MIME type (default "image/jpeg") parses, and it then carries the id, the bytes and the trimmed file name (default "photo.jpg"); a MIME type that does not parse is answered with "uploadAnimalPhoto: invalid mimeType=" and the trimmed type |
| AnimalRepo.ReorderPhotos | app/src/main/java/app/belqax/pature/data/repository/AnimalRepository.java:241-258 | an empty id list is refused with its message; otherwise the request carries the animal id and the ids in the given order |
| AnimalRepo.Enqueue | app/src/main/java/app/belqax/pature/data/repository/AnimalRepository.java:269-316 | success exactly for a 2xx reply, carrying its body; another reply gives its code, "<op>: http error" and the error text; a failure gives "<op>: " plus its message or "network error", without code or body |
| AnimalRepo.HttpCodeOnlyForServerErrors | app/src/main/java/app/belqax/pature/data/repository/AnimalRepository.java:269-316 | a result has an HTTP code exactly when the server replied with a non-2xx code |
| CardMapper.Title | app/src/main/java/app/belqax/pature/adapter/AnimalCardMapper.java:18 | the trimmed name when it is present and not blank, otherwise "Без имени" |
| CardMapper.TitleIsVisible | app/src/main/java/app/belqax/pature/adapter/AnimalCardMapper.java:18 | a card title is never empty and never has surrounding blanks |
| CardMapper.PrimaryIndex | app/src/main/java/app/belqax/pature/adapter/AnimalCardMapper.java:37-43 | where the for/break search stops: the first photo marked primary, no earlier photo being primary, or the end of the list |
| CardMapper.ChosenPhoto | app/src/main/java/app/belqax/pature/adapter/AnimalCardMapper.java:45 | a primary photo whenever the list has one; the first element when none is primary |
| CardMapper.PhotoUrl | app/src/main/java/app/belqax/pature/adapter/AnimalCardMapper.java:50-56 | the trimmed thumbnail URL when it is not blank, else the trimmed full URL when that is not blank, else none; never empty or padded |
| CardMapper.PickBestPhotoUrl | app/src/main/java/app/belqax/pature/adapter/AnimalCardMapper.java:32-57 | none for a missing or empty list; any URL returned is non-empty, trimmed and the URL of the chosen photo |
| CardMapper.FromDto | app/src/main/java/app/belqax/pature/adapter/AnimalCardMapper.java:17-28 | id and description copied unchanged; the title and image are `Title` and `PickBestPhotoUrl` of the DTO |
| CardMapper.FirstPrimaryWins | app/src/main/java/app/belqax/pature/adapter/AnimalCardMapper.java:37-56 | when photo k is the first primary one, the image is photo k's URL |
| CardMapper.NoPrimaryUsesFirst | app/src/main/java/app/belqax/pature/adapter/AnimalCardMapper.java:45-56 | with no primary photo the first element is used, and a null first element gives no image |
| HomeFeed.Fresh | app/src/main/java/app/belqax/pature/fragment/HomeFragment.java:200-209 | the DTOs the dedup loop keeps: none of their ids was seen before |
| HomeFeed.FreshDistinct | app/src/main/java/app/belqax/pature/fragment/HomeFragment.java:200-209 | the kept DTOs have pairwise distinct ids, even when the page repeats an id |
| HomeFeed.FreshCoversUnseen | app/src/main/java/app/belqax/pature/fragment/HomeFragment.java:200-209 | every non-null DTO of the page whose id was not seen is among the kept ones, so nothing new is lost |
| HomeFeed.Cards | app/src/main/java/app/belqax/pature/fragment/HomeFragment.java:200-209 | one card per kept DTO, in order, each mapped by `fromDto` |
| HomeFeed.PageQuery | app/src/main/java/app/belqax/pature/fragment/HomeFragment.java:156-170 | the feed query asks for 30 active animals from the current offset, photos not required, with no species or city filter |
| HomeFeed.HomeFragment.constructor | app/src/main/java/app/belqax/pature/fragment/HomeFragment.java:41-46 | offset 0, not loading, end not reached, no cards and no seen ids; the feed invariant holds |
| HomeFeed.HomeFragment.LoadNextPageIfNeeded | app/src/main/java/app/belqax/pature/fragment/HomeFragment.java:156-170 | while a load is running or the end was reached nothing is requested; otherwise the page at the current offset is requested and loading is set; nothing else changes |
| HomeFeed.HomeFragment.OnFeedResult | app/src/main/java/app/belqax/pature/fragment/HomeFragment.java:170-232 | a detached fragment or a failure only clears loading; an empty page marks the end; otherwise the offset moves by the page size, the fresh cards are appended and their ids marked seen, and a page of only duplicates asks for the next page at once; the invariant (distinct card ids, all seen) is kept |
| HomeFeed.HomeFragment.TakeFresh | app/src/main/java/app/belqax/pature/fragment/HomeFragment.java:199-209 | the loop's mapped list is the cards of the fresh DTOs, and the seen set grows by exactly their ids |
| HomeFeed.HomeFragment.MaybePrefetch | app/src/main/java/app/belqax/pature/fragment/HomeFragment.java:140-154 | without a stack or adapter nothing happens; with 8 or fewer cards left the next page is requested under the same guard as `loadNextPageIfNeeded` |
| HomeFeed.HomeFragment.OnSwiped | app/src/main/java/app/belqax/pature/fragment/HomeFragment.java:105-115 | an out-of-range position sends nothing; otherwise the swiped card's id is sent, "like" exactly for a right swipe and "dislike" exactly for a left one |
| HomeFeed.AppendFreshKeepsDistinct | app/src/main/java/app/belqax/pature/fragment/HomeFragment.java:200-216 | appending the cards of fresh DTOs to cards whose ids are all seen keeps card ids distinct and all seen |
| HomeFeed.BuildRepoError | app/src/main/java/app/belqax/pature/fragment/HomeFragment.java:235-249 | the diagnostic starts with the operation name and a colon |
| HomeFeed.RepoErrorIsTrimmedText | app/src/main/java/app/belqax/pature/fragment/HomeFragment.java:235-249 | the diagnostic is "op: " followed by "http=<code> ", "msg=<message> " and "body=<body>" for the non-null parts, in that order, the whole trimmed |
| HomeFeed.RepoErrorShowsPresentParts | app/src/main/java/app/belqax/pature/fragment/HomeFragment.java:238-246 | a non-null HTTP code shows as "http=<code>", a non-null message as "msg=<message>" and a non-null body as "body=<body>", each without its trailing blanks |
| HomeFeed.RepoErrorOmitsAbsentParts | app/src/main/java/app/belqax/pature/fragment/HomeFragment.java:238-246 | a null HTTP code, message or body leaves no "http=", "msg=" or "body=" label, unless the operation name or another part already holds that label |
| HomeFeed.RepoErrorLacks | app/src/main/java/app/belqax/pature/fragment/HomeFragment.java:235-249 | a text is absent from the diagnostic when neither the operation name nor a present part holds it and it cannot begin inside a label, a code or a blank |
| HomeFeed.BareErrorIsOpName | app/src/main/java/app/belqax/pature/fragment/HomeFragment.java:235-249 | with no code, message or body the diagnostic is just "<op>:", the trailing blank trimmed |
| MyAnimals.Subtitle | app/src/main/java/app/belqax/pature/adapter/MyAnimalsAdapter.java:61-70 | trimmed species and city joined by " • " when both are present, either alone when only it is present, and a single blank when neither is |
| MyAnimals.SubtitleShowsParts | app/src/main/java/app/belqax/pature/adapter/MyAnimalsAdapter.java:61-70 | the subtitle is never empty, starts with the species when there is one and ends with the city when there is one |
| MyAnimals.BindRow | app/src/main/java/app/belqax/pature/adapter/MyAnimalsAdapter.java:56-98 | the row's title, subtitle and photo URL follow the title rule, `Subtitle` and the photo choice |
| MyAnimals.RowAgreesWithCard | app/src/main/java/app/belqax/pature/adapter/MyAnimalsAdapter.java:59-92 | a row shows the same title and photo as the feed card built from the same DTO |
| MyAnimals.MyAnimalsAdapter.constructor | app/src/main/java/app/belqax/pature/adapter/MyAnimalsAdapter.java:30-36 | the list starts empty |
| MyAnimals.MyAnimalsAdapter.SetItems | app/src/main/java/app/belqax/pature/adapter/MyAnimalsAdapter.java:42-46 | the list is replaced by the new items, and the item count is their number |
| Sorting.Insert | app/src/main/java/app/belqax/pature/fragment/ChatsFragment.java:133-147 | inserting keeps every element: the result's multiset is the input's plus the new element |
| Sorting.Sort | app/src/main/java/app/belqax/pature/fragment/ChatsFragment.java:133-147 | `Collections.sort` permutes the list: same multiset of elements |
| Sorting.InsertSorted | app/src/main/java/app/belqax/pature/fragment/ChatsFragment.java:133-147 | inserting into a list sorted by a total preorder keeps it sorted |
| Sorting.SortSorted | app/src/main/java/app/belqax/pature/fragment/ChatsFragment.java:133-147 | the sorted list is ordered by the comparator whenever it is a total preorder |
| Filtering.FilterStep | app/src/main/java/app/belqax/pature/fragment/EventsFragment.java:137-147 | one more element either joins the filtered prefix at its end, when it passes, or leaves it unchanged |
| Filtering.FilterKeepsAll | app/src/main/java/app/belqax/pature/fragment/SearchFragment.java:167-183 | when every element passes, the filter returns the list unchanged |
| Filtering.FilterLength | app/src/main/java/app/belqax/pature/activity/EditProfileFieldActivity.java:418-433 | the filter never lengthens the list |
| Filtering.FilterCounts | app/src/main/java/app/belqax/pature/fragment/ChatsFragment.java:121-131 | every element that passes is kept as often as it occurs and every other one is dropped, so the result's members are exactly the passing members of the list |
| Events.IsSameDay | app/src/main/java/app/belqax/pature/fragment/EventsFragment.java:213-216 | two calendar days are the same day exactly when they are equal: year and day of year identify the day |
| Events.ResolveDayGroup | app/src/main/java/app/belqax/pature/fragment/EventsFragment.java:194-211 | "today" exactly for an event on today's date, "yesterday" exactly for one on yesterday's date that is not today, "earlier" for all others |
| Events.Filtered | app/src/main/java/app/belqax/pature/fragment/EventsFragment.java:137-147 | exactly the events that pass the unread and type filters are kept, each as many times as it occurs in the list; every other event occurs zero times |
| Events.SortedNewestFirst | app/src/main/java/app/belqax/pature/fragment/EventsFragment.java:149-154 | the sorted events are a permutation of the filtered ones with times non-increasing |
| Events.EventsOfAppend | app/src/main/java/app/belqax/pature/fragment/EventsFragment.java:161-191 | the events of two joined lists are the events of each, in order |
| Events.SectionedKeepsEvents | app/src/main/java/app/belqax/pature/fragment/EventsFragment.java:161-191 | dropping the headers from the sectioned list gives back the events in their order |
| Events.Sectioned | app/src/main/java/app/belqax/pature/fragment/EventsFragment.java:161-191 | the list is empty exactly for no events and otherwise holds each event plus at most one header per event |
| Events.SectionedEnds | app/src/main/java/app/belqax/pature/fragment/EventsFragment.java:161-191 | the list is empty exactly for no events; it starts with the first event's day header and ends with the last event, under the last event's day header |
| Events.EventsUnderOwnHeader | app/src/main/java/app/belqax/pature/fragment/EventsFragment.java:161-191 | every event stands under the header of its own day group |
| Events.HeadersOnlyOnChange | app/src/main/java/app/belqax/pature/fragment/EventsFragment.java:168-185 | a header is only added when the group differs from the previous header's |
| Events.FilterTypeFor | app/src/main/java/app/belqax/pature/fragment/EventsFragment.java:278-290 | each of the four type chips selects its own event type, and any other chip selects all types |
| Events.EventsFragment.constructor | app/src/main/java/app/belqax/pature/fragment/EventsFragment.java:34-38 | the events given, no unread filter, no type filter and an empty list |
| Events.EventsFragment.ApplyFiltersAndUpdate | app/src/main/java/app/belqax/pature/fragment/EventsFragment.java:136-158 | the shown items are the sectioned list of the filtered events sorted newest first; the events and filters are unchanged |
| Events.EventsFragment.FilterEvents | app/src/main/java/app/belqax/pature/fragment/EventsFragment.java:137-147 | the loop skips an event failing either filter and keeps the rest, building exactly `Filtered` |
| Events.EventsFragment.BuildSectionedList | app/src/main/java/app/belqax/pature/fragment/EventsFragment.java:161-191 | the loop builds exactly `Sectioned` of the events |
| Events.EventsFragment.ApplyFilterSheet | app/src/main/java/app/belqax/pature/fragment/EventsFragment.java:272-296 | a present checkbox sets the unread filter, a present chip group sets the type filter, and the list is rebuilt from them |
| Chats.Filtered | app/src/main/java/app/belqax/pature/fragment/ChatsFragment.java:121-131 | exactly the chats that pass the unread and favourite filters are kept, each as many times as it occurs in the list; every other chat occurs zero times |
| Chats.ComparatorIsTotalPreorder | app/src/main/java/app/belqax/pature/fragment/ChatsFragment.java:133-147 | each of the three comparators is a total preorder, so sorting by it is meaningful |
| Chats.Comparator | app/src/main/java/app/belqax/pature/fragment/ChatsFragment.java:133-147 | each mode's comparator orders any two chats one way or the other (by time descending, time ascending, or title ignoring case) |
| Chats.SortedByMode | app/src/main/java/app/belqax/pature/fragment/ChatsFragment.java:133-147 | the sorted chats are a permutation, ordered by time descending for "newest", ascending for "oldest", and by title ignoring case for "name" |
| Chats.SortModeFor | app/src/main/java/app/belqax/pature/fragment/ChatsFragment.java:217-226 | the "oldest" chip gives oldest, the "by name" chip gives name, and any other chip gives newest |
| Chats.ChatsFragment.constructor | app/src/main/java/app/belqax/pature/fragment/ChatsFragment.java:33-45 | the chats given, no filters, newest-first sorting and an empty list |
| Chats.ChatsFragment.ApplyFiltersAndUpdateList | app/src/main/java/app/belqax/pature/fragment/ChatsFragment.java:120-151 | the shown list is the filtered chats sorted by the current mode; chats, filters and mode unchanged |
| Chats.ChatsFragment.FilterChats | app/src/main/java/app/belqax/pature/fragment/ChatsFragment.java:121-131 | the loop skips a chat failing either filter and keeps the rest, building exactly `Filtered` |
| Chats.ChatsFragment.ApplyFilterSheet | app/src/main/java/app/belqax/pature/fragment/ChatsFragment.java:208-230 | present checkboxes set their filters, a present chip group sets the mode, and the list is rebuilt |
| Search.SearchFilters.constructor | app/src/main/java/app/belqax/pature/utils/SearchFilters.java:15-20 | species and gender "any", ages 0 to 20, no photo or favourites restriction |
| Search.SearchFilters.Copy | app/src/main/java/app/belqax/pature/utils/SearchFilters.java:22-32 | a new object whose six fields equal this one's |
| Search.SameAsTransitive | app/src/main/java/app/belqax/pature/utils/SearchFilters.java:22-32 | a copy of a copy has the same fields as the original, in both directions |
| Search.Selected | app/src/main/java/app/belqax/pature/fragment/SearchFragment.java:167-183 | the animals shown are exactly those that match the lowercased query and the filters, each as often as it is in the list; it is `Filter` of the list, so their order is kept |
| Search.EmptyQueryShowsAll | app/src/main/java/app/belqax/pature/fragment/SearchFragment.java:186-190 | an empty query and no photo filter show every animal, unchanged (by `Filtering.FilterKeepsAll`) |
| Search.LongerQueryNarrows | app/src/main/java/app/belqax/pature/fragment/SearchFragment.java:186-200 | typing more never adds a result: whatever matches the longer query matches its prefix |
| Search.VerbatimNameMatches | app/src/main/java/app/belqax/pature/fragment/SearchFragment.java:186-200 | an animal whose name contains the query as typed is found |
| Search.SearchFragment.constructor | app/src/main/java/app/belqax/pature/fragment/SearchFragment.java:41-45 | the animals given, no results yet, an empty query and fresh default filters |
| Search.SearchFragment.ApplyFiltersAndQuery | app/src/main/java/app/belqax/pature/fragment/SearchFragment.java:167-183 | the results are `Selected` of the animals for the current query and filters; the empty state is shown exactly when there are none and the results exactly when there are some |
| Search.SearchFragment.UpdateEmptyState | app/src/main/java/app/belqax/pature/fragment/SearchFragment.java:220-228 | the empty state is visible exactly when the result list is empty, and the results list otherwise |
| Search.SearchFragment.AfterTextChanged | app/src/main/java/app/belqax/pature/fragment/SearchFragment.java:114-117 | the query becomes the trimmed text (or "") and the results are recomputed for it |
| Search.SearchFragment.OnFiltersApplied | app/src/main/java/app/belqax/pature/fragment/SearchFragment.java:231-235 | the filters are replaced by the ones applied and the results are recomputed for them |
| AddressRepo.MapHttpError | app/src/main/java/app/belqax/pature/data/repository/AddressRepository.java:99-134 | the code and raw body are kept and it is not a network error; unauthorized exactly for 401 and 403; 400, 401/403 and 5xx get their fixed messages and any other code "Ошибка подсказок адреса (<code>)" |
| AddressRepo.MapNetworkError | app/src/main/java/app/belqax/pature/data/repository/AddressRepository.java:136-163 | always a network error without raw body; an HttpException keeps its code, its "Ошибка HTTP <code>" message and unauthorized exactly for 401 and 403; any other failure has code 0 and the fixed network message |
| AddressRepo.HttpErrorAndExceptionAgree | app/src/main/java/app/belqax/pature/data/repository/AddressRepository.java:99-163 | an error reply and an HttpException with the same code agree on the code and on being unauthorized, and differ only in the network flag |
| AddressRepo.Autocomplete | app/src/main/java/app/belqax/pature/data/repository/AddressRepository.java:58-97 | suggestions exactly for a 2xx reply with a body, a missing list read as empty; otherwise the error is the mapped HTTP error of the reply or the mapped failure |
| AddressRepo.NetworkErrorIffFailed | app/src/main/java/app/belqax/pature/data/repository/AddressRepository.java:58-97 | an autocomplete error is flagged as a network error exactly when the call itself failed |
| AnimalForm.AgeFromDob | app/src/main/java/app/belqax/pature/activity/AnimalFormActivity.java:417-448 | the age fields are cleared exactly when the birth date is after today; otherwise years and months are never negative |
| AnimalForm.AgeIsElapsedMonths | app/src/main/java/app/belqax/pature/activity/AnimalFormActivity.java:417-448 | for a birth date not after today the shown age is the whole months elapsed (a month counting only once its day is reached), split into years and months 0..11 |
| AnimalForm.ParseIntOrNull | app/src/main/java/app/belqax/pature/activity/AnimalFormActivity.java:858-873 | absent or blank text gives null; other text gives the integer the trimmed text parses to, or null when it does not parse |
| AnimalForm.ExtractCityFallback | app/src/main/java/app/belqax/pature/activity/AnimalFormActivity.java:746-762 | none exactly for missing or blank text; otherwise a non-empty trimmed prefix of the trimmed address, the whole trimmed address when it has no comma |
| AnimalForm.CityOf | app/src/main/java/app/belqax/pature/activity/AnimalFormActivity.java:672-675 | the suggestion's own trimmed city when it has one, otherwise the city taken from its formatted address |
| AnimalForm.ColorFollowsToggle | app/src/main/java/app/belqax/pature/activity/AnimalFormActivity.java:641-644 | when "другое…" is chosen the colour sent is the trimmed "other" text, otherwise the chosen colour |
| AnimalForm.ResolveColor | app/src/main/java/app/belqax/pature/activity/AnimalFormActivity.java:643-646 | the colour sent is the normalised chosen colour or the normalised "other" text, and none when no colour is chosen |
| AnimalForm.BreedListFor | app/src/main/java/app/belqax/pature/activity/AnimalFormActivity.java:473-495 | each breed list is picked exactly for its species word, trimmed and lowercased, both spellings of ferret and bear included; any other species picks none |
| AnimalForm.BreedListIgnoresCase | app/src/main/java/app/belqax/pature/activity/AnimalFormActivity.java:473-495 | the breed list does not depend on the case of the species |
| AnimalForm.SuggestionLabel | app/src/main/java/app/belqax/pature/activity/AnimalFormActivity.java:364-372 | each dropdown label is non-empty and trimmed: the trimmed formatted address, or "Адрес" for a missing suggestion or address |
| AnimalForm.MapSuggestionsToStrings | app/src/main/java/app/belqax/pature/activity/AnimalFormActivity.java:364-372 | a new array with one label per suggestion, in order |
| AnimalForm.CheckDobAsWritten | app/src/main/java/app/belqax/pature/activity/AnimalFormActivity.java:606-625 | the date check as written rejects exactly the unparsable dates and never reports a future date or recomputes the age |
| AnimalForm.CheckDob | app/src/main/java/app/belqax/pature/activity/AnimalFormActivity.java:606-625 | the intended date check: unparsable dates are rejected, future dates are rejected, no date keeps the typed age, and a good date recomputes the age from it |
| AnimalForm.CompleteReportsFirstFailure | app/src/main/java/app/belqax/pature/activity/AnimalFormActivity.java:578-735 | a rejected form reports a failing check with no earlier check failing (name, species, sex, date, age years, age months, chip number, address in that order), and a form is accepted exactly when no check fails |
| AnimalForm.CompleteBody | app/src/main/java/app/belqax/pature/activity/AnimalFormActivity.java:680-733 | an accepted form's request carries the trimmed fields, the ages within 0..120 and 0..11, a chip number whenever chipped, and the picked suggestion's city and coordinates |
| AnimalForm.CompleteAcceptsOnlyGoodDob | app/src/main/java/app/belqax/pature/activity/AnimalFormActivity.java:606-625 | an accepted form never had an invalid or future date, and a recomputed age is the one sent |
| AnimalForm.Complete | app/src/main/java/app/belqax/pature/activity/AnimalFormActivity.java:586-735 | a rejection names a check that fails; an accepted form has a picked address and sends that suggestion's city |
| AnimalForm.ValidateAsWritten | app/src/main/java/app/belqax/pature/activity/AnimalFormActivity.java:578-735 | the save as written never reports a birth date in the future |
| AnimalForm.Validate | app/src/main/java/app/belqax/pature/activity/AnimalFormActivity.java:578-735 | with the corrected date step, an accepted form's birth date, when given, parses and is not after today |
| AnimalForm.AsWrittenAcceptsFutureDob | app/src/main/java/app/belqax/pature/activity/AnimalFormActivity.java:606-625 | with the validator as written a form whose birth date is in the future ("2999-01-01") is accepted and sent with that date |
| AnimalForm.ValidateRejectsFutureDob | app/src/main/java/app/belqax/pature/activity/AnimalFormActivity.java:606-625 | with the corrected validator an accepted birth date parses, is not in the future, and the age sent is the one computed from it |
| AnimalForm.AnimalFormActivity.constructor | app/src/main/java/app/belqax/pature/activity/AnimalFormActivity.java:107-125 | the edit id given, not busy, no address request, no suggestions, no selected suggestion, nothing pending |
| AnimalForm.AnimalFormActivity.OnAddressTextChanged | app/src/main/java/app/belqax/pature/activity/AnimalFormActivity.java:256-268 | typing clears the selected suggestion and reschedules the autocomplete for the text |
| AnimalForm.AnimalFormActivity.ScheduleAddressAutocomplete | app/src/main/java/app/belqax/pature/activity/AnimalFormActivity.java:282-296 | a trimmed query shorter than 3 characters drops the suggestions and cancels the pending request; otherwise the trimmed query is scheduled |
| AnimalForm.AnimalFormActivity.RequestAddressAutocomplete | app/src/main/java/app/belqax/pature/activity/AnimalFormActivity.java:298-311 | while busy nothing is sent; otherwise the sequence number goes up by one, loading starts and the lookup carries the new number, the given query, the limit 8 and the language "ru" |
| AnimalForm.AnimalFormActivity.FirePendingLookup | app/src/main/java/app/belqax/pature/activity/AnimalFormActivity.java:294-295 | when the debounce timer fires, the scheduled trimmed query is looked up with the next sequence number (unless busy); with nothing scheduled nothing is sent |
| AnimalForm.AnimalFormActivity.OnSuggestions | app/src/main/java/app/belqax/pature/activity/AnimalFormActivity.java:313-343 | a reply to an older request is ignored; the reply to the latest one stops loading, keeps the suggestions and shows one label per suggestion |
| AnimalForm.AnimalFormActivity.OnSuggestionsError | app/src/main/java/app/belqax/pature/activity/AnimalFormActivity.java:345-358 | an error for an older request is ignored; for the latest one loading stops and the suggestions are dropped |
| AnimalForm.AnimalFormActivity.OnSuggestionClicked | app/src/main/java/app/belqax/pature/activity/AnimalFormActivity.java:271-278 | a position inside the last suggestions selects that suggestion; any other click clears the selection |
| AnimalForm.AnimalFormActivity.OnSaveClicked | app/src/main/java/app/belqax/pature/activity/AnimalFormActivity.java:578-735 | while busy nothing happens; otherwise the corrected validator decides: an error is shown, or an update (edit mode) or create request is sent with its body and the screen becomes busy |
| AnimalForm.AnimalFormActivity.OnSaveResult | app/src/main/java/app/belqax/pature/activity/AnimalFormActivity.java:764-800 | busy ends, and the screen finishes exactly on success |
| EditProfileField.TrimToNoneCleans | app/src/main/java/app/belqax/pature/activity/EditProfileFieldActivity.java:564-573 | `safeTrimToNull` yields null or a non-empty trimmed string, and leaves such a value as it is |
| EditProfileField.FromSuggestion | app/src/main/java/app/belqax/pature/activity/EditProfileFieldActivity.java:533-547 | every text field of the payload is trimmed or null, blank ones null; coordinates and confidence are copied |
| EditProfileField.FromFreeText | app/src/main/java/app/belqax/pature/activity/EditProfileFieldActivity.java:549-562 | only the formatted text is set (null when blank); every other field is null |
| EditProfileField.FromSuggestionIdempotent | app/src/main/java/app/belqax/pature/activity/EditProfileFieldActivity.java:533-547 | building a payload from a suggestion that already holds a payload's values gives the same payload |
| EditProfileField.Save | app/src/main/java/app/belqax/pature/activity/EditProfileFieldActivity.java:202-290 | no field type finishes; a blank name is refused; an age is refused unless blank or a whole number 1..120; about over 512 and location over 256 characters are refused; a saved value is trimmed, and a location carries the payload of the picked suggestion or of the text, whose formatted text is the value returned |
| EditProfileField.FreeTextLocationKeepsText | app/src/main/java/app/belqax/pature/activity/EditProfileFieldActivity.java:266-276 | a typed location is saved as its trimmed text with a free-text payload |
| EditProfileField.SaveIdempotent | app/src/main/java/app/belqax/pature/activity/EditProfileFieldActivity.java:202-290 | saving the saved value again gives the same result |
| EditProfileField.PickedSuggestionSaved | app/src/main/java/app/belqax/pature/activity/EditProfileFieldActivity.java:266-276 | after picking a suggestion, saving sends that suggestion's payload with its trimmed formatted text |
| EditProfileField.Listed | app/src/main/java/app/belqax/pature/activity/EditProfileFieldActivity.java:418-433 | exactly the DTOs with a non-blank formatted address are listed, each as often as in the reply and in its order (`Filter` of the reply); none is added |
| EditProfileField.EditProfileFieldActivity.constructor | app/src/main/java/app/belqax/pature/activity/EditProfileFieldActivity.java:94-129 | the field type and the initial value shown; autocomplete exactly for the location field; no suggestions, selection or query |
| EditProfileField.EditProfileFieldActivity.OnTextEdited | app/src/main/java/app/belqax/pature/activity/EditProfileFieldActivity.java:330-341 | on the location field an edit drops the selected suggestion and handles the trimmed text as the query; other fields only change the text |
| EditProfileField.EditProfileFieldActivity.HandleAddressTextChanged | app/src/main/java/app/belqax/pature/activity/EditProfileFieldActivity.java:372-386 | the query is remembered; under 3 characters the suggestions are cleared, otherwise the query is scheduled |
| EditProfileField.EditProfileFieldActivity.RequestAddressSuggestions | app/src/main/java/app/belqax/pature/activity/EditProfileFieldActivity.java:388-416 | a request (query, limit 5, "ru") is sent exactly when autocomplete is set up and the query is still the last one typed |
| EditProfileField.EditProfileFieldActivity.UpdateAddressSuggestionsFromDtos | app/src/main/java/app/belqax/pature/activity/EditProfileFieldActivity.java:418-444 | the listed DTOs become the suggestions, with their trimmed addresses as labels, shown exactly when there are some |
| EditProfileField.EditProfileFieldActivity.OnSuggestionsError | app/src/main/java/app/belqax/pature/activity/EditProfileFieldActivity.java:410-414 | an autocomplete error clears the suggestions and hides them |
| EditProfileField.EditProfileFieldActivity.ClearAddressSuggestions | app/src/main/java/app/belqax/pature/activity/EditProfileFieldActivity.java:446-456 | both suggestion lists are emptied and hidden when autocomplete is set up |
| EditProfileField.EditProfileFieldActivity.OnSuggestionClicked | app/src/main/java/app/belqax/pature/activity/EditProfileFieldActivity.java:302-310 | a click outside the list does nothing; otherwise that DTO is selected, its label becomes the text and the list is cleared |
| EditProfileField.EditProfileFieldActivity.OnSuggestionSelected | app/src/main/java/app/belqax/pature/activity/EditProfileFieldActivity.java:345-370 | the DTO is selected, the text becomes its trimmed formatted address and the suggestions are cleared |
| EditProfileField.EditProfileFieldActivity.OnSaveClicked | app/src/main/java/app/belqax/pature/activity/EditProfileFieldActivity.java:202-290 | the result is `Save` of the field type, the current text and the selected suggestion |
| ProfileRepo.MapHttpError | app/src/main/java/app/belqax/pature/data/repository/ProfileRepository.java:236-270 | code and raw body kept, no cause, not a network error; unauthorized exactly for 401 and 403; the session, server (5xx), validation (422) and "Ошибка запроса (<code>)" messages in that order of precedence |
| ProfileRepo.MapNetworkError | app/src/main/java/app/belqax/pature/data/repository/ProfileRepository.java:272-294 | a network error with a cause and no body; an HttpException keeps its code with "Ошибка HTTP <code>" and unauthorized exactly for 401 and 403; any other failure has code 0 and the network message |
| ProfileRepo.HttpErrorAndExceptionAgree | app/src/main/java/app/belqax/pature/data/repository/ProfileRepository.java:236-294 | an error reply and an HttpException with the same code agree on code and on being unauthorized, and differ in the network flag |
| ProfileRepo.ResultOf | app/src/main/java/app/belqax/pature/data/repository/ProfileRepository.java:62-85 | success exactly for a 2xx reply with a body, carrying it; otherwise the mapped HTTP error of the reply or the mapped failure |
| ProfileRepo.NetworkErrorIffFailed | app/src/main/java/app/belqax/pature/data/repository/ProfileRepository.java:62-85 | a profile error is flagged as a network error exactly when the call itself failed |
| ProfileRepo.ProfileRepository.constructor | app/src/main/java/app/belqax/pature/data/repository/ProfileRepository.java:43-47 | the repository starts from the cached profile in its storage |
| ProfileRepo.ProfileRepository.GetCachedProfile | app/src/main/java/app/belqax/pature/data/repository/ProfileRepository.java:57-60 | the cached profile, unchanged |
| ProfileRepo.ProfileRepository.OnOutcome | app/src/main/java/app/belqax/pature/data/repository/ProfileRepository.java:62-230 | the callback gets `ResultOf` the outcome; a success caches the profile it returns, an error leaves the cache as it was |
| ProfileRepo.ProfileRepository.UploadAvatar | app/src/main/java/app/belqax/pature/data/repository/ProfileRepository.java:167-205 | a file part without a body is refused with its own error and nothing is sent; otherwise the call is sent and its outcome handled as every profile call |
| ProfileRepo.ProfileRepository.ClearProfile | app/src/main/java/app/belqax/pature/data/repository/ProfileRepository.java:232-234 | the cached profile is removed |
| ProfileScreen.NormalizeToAbsoluteUrl | app/src/main/java/app/belqax/pature/fragment/ProfileFragment.java:589-598 | a trimmed URL starting with "http://" or "https://" is kept; any other is appended to the API base with exactly one "/" between them |
| ProfileScreen.NormalizedIsAbsolute | app/src/main/java/app/belqax/pature/fragment/ProfileFragment.java:589-598 | the normalised URL is always absolute and trimmed |
| ProfileScreen.NormalizeIdempotent | app/src/main/java/app/belqax/pature/fragment/ProfileFragment.java:589-598 | normalising a normalised URL changes nothing |
| ProfileScreen.ReadLocationForUi | app/src/main/java/app/belqax/pature/fragment/ProfileFragment.java:600-613 | the city exactly when it is present and not blank, and then unchanged |
| ProfileScreen.AgeText | app/src/main/java/app/belqax/pature/fragment/ProfileFragment.java:553-557 | an age is shown exactly when it is present and positive |
| ProfileScreen.AgeTextRoundTrip | app/src/main/java/app/belqax/pature/fragment/ProfileFragment.java:553-557 | the age shown parses back to the same age |
| ProfileScreen.NameUpdate | app/src/main/java/app/belqax/pature/fragment/ProfileFragment.java:639-673 | a blank name is refused with the name error; otherwise only the display name is sent, trimmed and non-empty |
| ProfileScreen.AgeUpdate | app/src/main/java/app/belqax/pature/fragment/ProfileFragment.java:675-724 | refused exactly when the trimmed text is neither empty nor a whole number 1..120; otherwise only the age is sent, null for empty text and the parsed number otherwise |
| ProfileScreen.AboutUpdate | app/src/main/java/app/belqax/pature/fragment/ProfileFragment.java:726-761 | refused exactly when the trimmed text is longer than 512; otherwise only "about" is sent, the trimmed text or null when empty |
| ProfileScreen.LocationUpdate | app/src/main/java/app/belqax/pature/fragment/ProfileFragment.java:763-834 | always sent: with a payload its location fields, trimmed to null; without one only the formatted location, from the trimmed result text |
| ProfileScreen.EditorNameIsSent | app/src/main/java/app/belqax/pature/fragment/ProfileFragment.java:189-233 | a name the editor saved is sent as it is |
| ProfileScreen.EditorAgeIsSent | app/src/main/java/app/belqax/pature/fragment/ProfileFragment.java:189-233 | an age the editor saved is never refused here, and is sent as its number or null |
| ProfileScreen.EditorAboutIsSent | app/src/main/java/app/belqax/pature/fragment/ProfileFragment.java:189-233 | an "about" the editor saved is sent as it is, empty as null |
| ProfileScreen.EditorPayloadIsSentAsIs | app/src/main/java/app/belqax/pature/fragment/ProfileFragment.java:763-797 | a payload the editor built is sent field for field, re-trimming changing nothing |
| ProfileScreen.ProfileFragment.constructor | app/src/main/java/app/belqax/pature/fragment/ProfileFragment.java:244-259 | the cached profile is the current one |
| ProfileScreen.ProfileFragment.UpdateName | app/src/main/java/app/belqax/pature/fragment/ProfileFragment.java:639-673 | nothing happens without a loaded profile; otherwise the attempt is `NameUpdate` |
| ProfileScreen.ProfileFragment.UpdateAgeFromString | app/src/main/java/app/belqax/pature/fragment/ProfileFragment.java:675-724 | nothing happens without a loaded profile; otherwise the attempt is `AgeUpdate` |
| ProfileScreen.ProfileFragment.UpdateAbout | app/src/main/java/app/belqax/pature/fragment/ProfileFragment.java:726-761 | nothing happens without a loaded profile; otherwise the attempt is `AboutUpdate` |
| ProfileScreen.ProfileFragment.ApplyLocationResult | app/src/main/java/app/belqax/pature/fragment/ProfileFragment.java:763-834 | nothing happens without a loaded profile; otherwise the attempt is `LocationUpdate` |
| ProfileScreen.ProfileFragment.OnEditResult | app/src/main/java/app/belqax/pature/fragment/ProfileFragment.java:189-233 | a cancelled result or one without field type is ignored; location results go to `ApplyLocationResult`; other fields need a value and go to their update step; an unknown field is ignored |
| ProfileScreen.ProfileFragment.OnUpdateSuccess | app/src/main/java/app/belqax/pature/fragment/ProfileFragment.java:848-858 | the returned profile becomes the current one |
| Classify.FirstMatch | app/src/main/java/app/belqax/pature/activity/LoginActivity.java:128-158 | an if/else-if chain over "contains" tests: the fallback, or the kind of a rule that fires on the text |
| Classify.AnyOfFires | app/src/main/java/app/belqax/pature/activity/LoginActivity.java:137-138 | a chain of `contains` tests joined by `\|\|` fires exactly when some needle occurs in the text |
| Classify.AllOfFires | app/src/main/java/app/belqax/pature/ui/ForgotPasswordBottomSheet.java:175 | a chain of `contains` tests joined by `&&` fires exactly when every needle occurs |
| Classify.OutcomeIffFirstToFire | app/src/main/java/app/belqax/pature/activity/LoginActivity.java:128-158 | with distinct kinds, the chain gives a rule's kind exactly when that rule fires and no earlier one does, and the fallback exactly when none fires |
| Classify.ClassifyIgnoresCase | app/src/main/java/app/belqax/pature/activity/LoginActivity.java:129 | the message is lowercased first, so the outcome does not depend on its case |
| Classify.NetworkRuleWins | app/src/main/java/app/belqax/pature/activity/LoginActivity.java:128-158 | a chain whose first branch is the network test reports a network problem whenever the lowercased message names one |
| Classify.NetworkRuleFires | app/src/main/java/app/belqax/pature/activity/LoginActivity.java:131 | the first branch of every classifier fires exactly when the lowercased message contains "сетев" |
| Classify.FirstFiringRuleWins | app/src/main/java/app/belqax/pature/activity/LoginActivity.java:131-157 | once a branch fires and no earlier one did, its outcome is the answer, whatever the later branches would say (the early `return`s) |
| Classify.NoRuleFiresGivesOtherwise | app/src/main/java/app/belqax/pature/activity/LoginActivity.java:157 | when no branch fires, the message falls through to the last, generic outcome |
| Login.IsValidPhone | app/src/main/java/app/belqax/pature/activity/LoginActivity.java:224-235 | the loop accepts exactly the numbers that, after one leading "+" is dropped, are 10 to 15 ASCII digits |
| Login.IsDigitsOrPlus | app/src/main/java/app/belqax/pature/activity/LoginActivity.java:237-254 | the loop accepts exactly the text that is not empty, is not a lone "+", and is all ASCII digits after at most one leading "+" |
| Login.ValidPhoneIsDigitsOrPlus | app/src/main/java/app/belqax/pature/activity/LoginActivity.java:224-254 | every valid phone number is read as a phone login |
| Login.DigitsOrPlusHasNoAt | app/src/main/java/app/belqax/pature/activity/LoginActivity.java:237-254 | text read as a phone login never contains "@" |
| Login.KindOf | app/src/main/java/app/belqax/pature/activity/LoginActivity.java:80-90 | a login is read as an e-mail exactly when it contains "@", as a phone exactly when it has no "@" and is digits and "+", and as a username otherwise |
| Login.LoginDecision | app/src/main/java/app/belqax/pature/activity/LoginActivity.java:69-96 | in order: an empty trimmed login; a login with "@" that is not a well-formed e-mail; a login of digits and "+" that is not a valid phone; then an empty password, each giving its field error; a username passes unchecked; otherwise the trimmed login and the untrimmed password are sent |
| Login.PerformLogin | app/src/main/java/app/belqax/pature/activity/LoginActivity.java:69-121 | the attempt is `LoginDecision` of the two fields |
| Login.PhoneLoginSubmitted | app/src/main/java/app/belqax/pature/activity/LoginActivity.java:69-121 | a valid phone number with a non-empty password is submitted as typed, after trimming |
| Login.PasswordNotTrimmed | app/src/main/java/app/belqax/pature/activity/LoginActivity.java:72-76 | the password is sent exactly as typed, surrounding blanks included |
| Login.LoginRulesFire | app/src/main/java/app/belqax/pature/activity/LoginActivity.java:131-152 | each branch's condition, on the lowercased message, is its set of phrases |
| Login.LoginErrorOutcomes | app/src/main/java/app/belqax/pature/activity/LoginActivity.java:128-158 | network, then wrong credentials, then unverified e-mail, else the message itself, each exactly when its phrases occur and no earlier branch's do |
| Login.HandleLoginError | app/src/main/java/app/belqax/pature/activity/LoginActivity.java:128-158 | a message naming a network problem, in any case, is reported as a network problem whatever else it says |
| Register.RegisterDecision | app/src/main/java/app/belqax/pature/ui/RegisterBottomSheet.java:84-105 | in order: empty or malformed e-mail, empty password, then a given phone that is not valid each give their field error; otherwise the trimmed fields are sent |
| Register.PhoneIsOptional | app/src/main/java/app/belqax/pature/ui/RegisterBottomSheet.java:101-105 | a form that is sent is also sent with no phone |
| Register.RegisteredPhoneCanLogIn | app/src/main/java/app/belqax/pature/ui/RegisterBottomSheet.java:370-381 | a phone the sheet registers is accepted by the login screen and submitted unchanged with the same password |
| Register.RegisterSheet.constructor | app/src/main/java/app/belqax/pature/ui/RegisterBottomSheet.java:42-44 | empty credentials and the first step |
| Register.RegisterSheet.StartRegister | app/src/main/java/app/belqax/pature/ui/RegisterBottomSheet.java:81-137 | the trimmed fields are kept, even when refused, and the attempt is `RegisterDecision` of them |
| Register.RegisterSheet.OnRegisterSuccess | app/src/main/java/app/belqax/pature/ui/RegisterBottomSheet.java:111-121 | the code step is shown and the kept credentials are unchanged |
| Register.RegisterSheet.ConfirmCode | app/src/main/java/app/belqax/pature/ui/RegisterBottomSheet.java:139-177 | an empty trimmed code gives its error; otherwise the code is sent for the kept e-mail |
| Register.RegisterSheet.AutoLogin | app/src/main/java/app/belqax/pature/ui/RegisterBottomSheet.java:179-213 | the login after confirmation uses exactly the kept e-mail and password |
| Register.RegisterSheet.ResendCode | app/src/main/java/app/belqax/pature/ui/RegisterBottomSheet.java:215-235 | the code is resent to the kept e-mail |
| Register.RegisterRulesFire | app/src/main/java/app/belqax/pature/ui/RegisterBottomSheet.java:248-270 | each branch's condition, on the lowercased message, is its set of phrases |
| Register.RegisterErrorOutcomes | app/src/main/java/app/belqax/pature/ui/RegisterBottomSheet.java:248-270 | network, then e-mail taken, then password rejected, else the message itself, each exactly when it is the first to apply |
| Register.HandleRegisterError | app/src/main/java/app/belqax/pature/ui/RegisterBottomSheet.java:248-270 | a message naming a network problem, in any case, is reported as a network problem whatever else it says |
| Register.ConfirmRulesFire | app/src/main/java/app/belqax/pature/ui/RegisterBottomSheet.java:272-315 | each branch's condition, on the lowercased message, is its set of phrases |
| Register.ConfirmErrorOutcomes | app/src/main/java/app/belqax/pature/ui/RegisterBottomSheet.java:272-315 | network, wrong code, expired code, too many attempts, already verified, else the message itself, each exactly when it is the first to apply |
| Register.HandleConfirmError | app/src/main/java/app/belqax/pature/ui/RegisterBottomSheet.java:272-315 | a message naming a network problem, in any case, is reported as a network problem whatever else it says |
| Register.ResendErrorOutcomes | app/src/main/java/app/belqax/pature/ui/RegisterBottomSheet.java:317-332 | network, then e-mail already verified in either spelling, else the message itself |
| Register.HandleResendError | app/src/main/java/app/belqax/pature/ui/RegisterBottomSheet.java:317-332 | a message naming a network problem, in any case, is reported as a network problem whatever else it says |
| Register.AutoLoginErrorOutcomes | app/src/main/java/app/belqax/pature/ui/RegisterBottomSheet.java:334-360 | network, then the English "incorrect login or password", else the message itself |
| Register.HandleAutoLoginError | app/src/main/java/app/belqax/pature/ui/RegisterBottomSheet.java:334-360 | a message naming a network problem, in any case, is reported as a network problem whatever else it says |
| ForgotPassword.ForgotPasswordSheet.constructor | app/src/main/java/app/belqax/pature/ui/ForgotPasswordBottomSheet.java:36 | no e-mail yet and the e-mail step shown |
| ForgotPassword.ForgotPasswordSheet.SendEmail | app/src/main/java/app/belqax/pature/ui/ForgotPasswordBottomSheet.java:68-111 | the trimmed e-mail is kept even when refused; an empty e-mail and a malformed one give their errors; otherwise the code is requested for that e-mail |
| ForgotPassword.ForgotPasswordSheet.OnCodeSent | app/src/main/java/app/belqax/pature/ui/ForgotPasswordBottomSheet.java:86-97 | the code step replaces the e-mail step; the kept e-mail is unchanged |
| ForgotPassword.ForgotPasswordSheet.ResetPassword | app/src/main/java/app/belqax/pature/ui/ForgotPasswordBottomSheet.java:113-157 | an empty trimmed code, then an empty trimmed new password, give their errors; otherwise the reset is sent for the kept e-mail with both trimmed values |
| ForgotPassword.ForgotErrorOutcomes | app/src/main/java/app/belqax/pature/ui/ForgotPasswordBottomSheet.java:168-183 | network, then a missing e-mail (the message has both "email" and "required"), else the message itself |
| ForgotPassword.HandleForgotError | app/src/main/java/app/belqax/pature/ui/ForgotPasswordBottomSheet.java:168-183 | a message naming a network problem, in any case, is reported as a network problem whatever else it says |
| ForgotPassword.ResetRulesFire | app/src/main/java/app/belqax/pature/ui/ForgotPasswordBottomSheet.java:185-234 | each branch's condition, on the lowercased message, is its set of phrases |
| ForgotPassword.ResetErrorOutcomes | app/src/main/java/app/belqax/pature/ui/ForgotPasswordBottomSheet.java:185-234 | network, wrong code, expired code, too many attempts, unknown user, rejected password, else the message itself, each exactly when it is the first to apply |
| ForgotPassword.HandleResetError | app/src/main/java/app/belqax/pature/ui/ForgotPasswordBottomSheet.java:185-234 | a message naming a network problem, in any case, is reported as a network problem whatever else it says |
| ChangePassword.Validate | app/src/main/java/app/belqax/pature/ui/ChangePasswordBottomSheet.java:119-142 | every rule is evaluated: the set of failed rules holds the old or new password under 8 characters, a new password equal to the old one, and a confirmation differing from the new one, each exactly when it holds; the set is empty exactly when the form is good |
| ChangePassword.AllRulesCanFailTogether | app/src/main/java/app/belqax/pature/ui/ChangePasswordBottomSheet.java:119-142 | all four rules can fail on the same form |
| ChangePassword.ShownErrors | app/src/main/java/app/belqax/pature/ui/ChangePasswordBottomSheet.java:124-139 | each layout shows a message exactly when one of its rules failed; the old and confirmation layouts show their own rule, and the new-password layout shows "same as old" whenever that rule failed, otherwise "too short" |
| ChangePassword.ShortNewPasswordShownUnlessSame | app/src/main/java/app/belqax/pature/ui/ChangePasswordBottomSheet.java:128-135 | the "too short" message for the new password is on screen exactly when it is short and differs from the old one |
| ChangePassword.AtMostThreeMessages | app/src/main/java/app/belqax/pature/ui/ChangePasswordBottomSheet.java:119-142 | at most three messages are on screen, one per layout |
| ChangePassword.AllFourFailuresShowThree | app/src/main/java/app/belqax/pature/ui/ChangePasswordBottomSheet.java:119-142 | when all four rules fail, the screen shows "old too short", "same as old" and "confirmation differs"; "new too short" is hidden |
| ChangePassword.Submit | app/src/main/java/app/belqax/pature/ui/ChangePasswordBottomSheet.java:81-117 | the three fields are read trimmed, missing ones as ""; the change is sent exactly when `Validate` reports nothing, with the trimmed old and new passwords; otherwise the errors are shown |
| ChangePassword.SentChangeIsWellFormed | app/src/main/java/app/belqax/pature/ui/ChangePasswordBottomSheet.java:81-100 | a request that is sent carries trimmed old and new passwords of at least 8 characters that differ, the new one equal to the trimmed confirmation |
| ChangePassword.MissingFieldIsTooShort | app/src/main/java/app/belqax/pature/ui/ChangePasswordBottomSheet.java:164-169 | a missing old-password field is read as "" and always fails its length rule, so nothing is sent |
| ChangePassword.BlanksDoNotMakeANewPassword | app/src/main/java/app/belqax/pature/ui/ChangePasswordBottomSheet.java:84-86 | old and new passwords that differ only in surrounding blanks are trimmed to the same text and refused as unchanged |
| PrivacyVisibility.VisibilityWords | app/src/main/java/app/belqax/pature/ui/PrivacyVisibilityBottomSheet.java:25-27 | the three visibility values are lowercase Latin words without blanks, of different lengths |
| PrivacyVisibility.VisibilitiesAreNormal | app/src/main/java/app/belqax/pature/ui/PrivacyVisibilityBottomSheet.java:25-27 | lowercasing and trimming leave each value unchanged, and the three are distinct |
| PrivacyVisibility.NormalizeVisibility | app/src/main/java/app/belqax/pature/ui/PrivacyVisibilityBottomSheet.java:132-141 | null gives "everyone"; otherwise the trimmed, lowercased value gives "matches" or "nobody" exactly when it is that word, and "everyone" for anything else |
| PrivacyVisibility.VisibilityIsNormalForm | app/src/main/java/app/belqax/pature/ui/PrivacyVisibilityBottomSheet.java:132-141 | each of the three values normalises to itself |
| PrivacyVisibility.NormalizeIdempotent | app/src/main/java/app/belqax/pature/ui/PrivacyVisibilityBottomSheet.java:132-141 | normalising twice is normalising once |
| PrivacyVisibility.ArgString | app/src/main/java/app/belqax/pature/ui/PrivacyVisibilityBottomSheet.java:119-130 | the fallback without arguments or for a missing or blank value; otherwise the stored value, untrimmed |
| PrivacyVisibility.SelectedVisibility | app/src/main/java/app/belqax/pature/ui/PrivacyVisibilityBottomSheet.java:107-117 | the "matches" and "nobody" chips give their values, and any other chip "everyone" |
| PrivacyVisibility.InitialChip | app/src/main/java/app/belqax/pature/ui/PrivacyVisibilityBottomSheet.java:79-93 | the sheet always opens with one of the three chips checked |
| PrivacyVisibility.ApplyUntouchedReportsCurrent | app/src/main/java/app/belqax/pature/ui/PrivacyVisibilityBottomSheet.java:79-117 | applying the sheet as it opened reports the normalised current value |
| PrivacyVisibility.NoArgumentsMeansEveryone | app/src/main/java/app/belqax/pature/ui/PrivacyVisibilityBottomSheet.java:79-93 | without arguments the sheet opens on "everyone" |
| ProfileSettings.ChipFor | app/src/main/java/app/belqax/pature/activity/ProfileSettingsActivity.java:271-282 | every privacy level has a chip |
| ProfileSettings.LevelFor | app/src/main/java/app/belqax/pature/activity/ProfileSettingsActivity.java:284-295 | a level exactly for the three known chips, none for any other id |
| ProfileSettings.ChipLevelRoundTrip | app/src/main/java/app/belqax/pature/activity/ProfileSettingsActivity.java:271-295 | level to chip to level is the identity, and so is known chip to level to chip |
| ProfileSettings.Applied | app/src/main/java/app/belqax/pature/activity/ProfileSettingsActivity.java:256-265 | with no known chip checked the level stays; otherwise it is the level of the checked chip |
| ProfileSettings.ApplyUntouchedKeepsLevel | app/src/main/java/app/belqax/pature/activity/ProfileSettingsActivity.java:245-265 | applying the sheet as it opened keeps the level |
| ProfileSettings.ProfileSettingsActivity.constructor | app/src/main/java/app/belqax/pature/activity/ProfileSettingsActivity.java:51-52 | everyone sees the profile, matches see the photos |
| ProfileSettings.ProfileSettingsActivity.OpenSheet | app/src/main/java/app/belqax/pature/activity/ProfileSettingsActivity.java:245-250 | the chip checked on opening is the row's current level |
| ProfileSettings.ProfileSettingsActivity.Apply | app/src/main/java/app/belqax/pature/activity/ProfileSettingsActivity.java:256-265 | that row's level becomes the applied one and the other row's level is unchanged |
| Onboarding.Forward | app/src/main/java/app/belqax/pature/activity/OnboardingActivity.java:86-94 | the next step stays in range, and is the same step exactly on the last one |
| Onboarding.Backward | app/src/main/java/app/belqax/pature/activity/OnboardingActivity.java:96-104 | the previous step stays in range, and is the same step exactly on the first one |
| Onboarding.BackUndoesForward | app/src/main/java/app/belqax/pature/activity/OnboardingActivity.java:86-104 | away from the ends, back undoes next and next undoes back |
| Onboarding.ForwardWalk | app/src/main/java/app/belqax/pature/activity/OnboardingActivity.java:86-94 | below the last step, each press of "next" moves exactly one step on |
| Onboarding.OnboardingActivity.constructor | app/src/main/java/app/belqax/pature/activity/OnboardingActivity.java:51-58 | the four steps, starting on the first |
| Onboarding.OnboardingActivity.GoNext | app/src/main/java/app/belqax/pature/activity/OnboardingActivity.java:86-94 | the step moves forward, and finishing is requested exactly on the last step |
| Onboarding.OnboardingActivity.GoBack | app/src/main/java/app/belqax/pature/activity/OnboardingActivity.java:96-104 | the step moves back, and the activity closes exactly on the first step |

## Left out

- `TokenAuth`: the refresh call's own HTTP client is not modelled. It has a device-header interceptor (TokenAuthenticator.java:51-68) that calls `getOrCreateDeviceId` and sets the same five headers as the API client's interceptor (`ApiClientModel.WithDeviceHeaders`), plus timeouts. So `TokenAuth` does not show the refresh request's headers, or the device id that interceptor may create and store.
- Concurrency: `TokenAuthenticator`'s `synchronized` block is sequential code that re-reads storage, and the debounce timers are a pending query.
- Network I/O, Retrofit/OkHttp plumbing and Gson parsing are outside the model; call outcomes (success with or without body, HTTP error code, exception) are inputs.
- `Calendar` and `SimpleDateFormat` are not modelled: the current date, the clock and the date parser are parameters, and dates are (year, month, day) or (year, day-of-year) values.
- Android's `Patterns.EMAIL_ADDRESS` is the parameter `isEmail`.
- `toLowerCase` lowers only ASCII and Cyrillic letters; other scripts and locale rules are not modelled.
- `Character.isDigit` is modelled as the ASCII digits only.
- HTTP header names are compared exactly, not case-insensitively.
- Floating-point coordinates are carried as opaque values; card animation, gesture processing, layout measurement and the onboarding progress percentage are not modelled.
- Toasts, logging, view visibility other than the empty state and loading flags, and `isFinishing` checks are not modelled.
- The register, confirm, resend and forgot-password repository calls are modelled only as the requests the sheets send; their responses enter as outcome messages.
- `ChangePasswordBottomSheet` calls a repository method that `AuthRepository` does not declare, so the change request is the model's last step.
- `HomeFragment` uses a `CardAdapter` API that `CardAdapter.java` does not offer; the card list is modelled as a sequence.
- `ProfileStorage` is not part of this model: the profile cache is the repository's `cached` field.
- Events.SortedNewestFirst: states order and permutation but not that equal timestamps keep their relative order (Java's stable sort).
- Chats.SortedByMode: states order and permutation but not stability.
- Null elements inside a suggestion list are not modelled; lists hold values.
- Input `LengthFilter`s on the text fields are not modelled.
- The animal form's weight and height (`parseDoubleOrNull`: trim, comma to dot, `Double.parseDouble`, an invalid number marks its field and sends null) are not modelled; they are floating point, no check rejects the save on them, and the body is modelled without them.
- `ProfileError`'s cause is a flag saying whether there was one.
- The privacy row's value text (`updatePrivacyRowValue`) is not modelled.
- `suppressAddressTextWatcher` and `isProgrammaticTextChange` are modelled only as "the change came from the user or not".
- The register and forgot-password fields start as "" rather than null.
- AnimalForm.AnimalFormActivity.OnSaveClicked: runs the corrected validator `Validate`, not `ValidateAsWritten`. So a parsable date of birth in the future, such as "2999-01-01", is refused here, while the app as written sends it. The as-written behaviour is modelled by `ValidateAsWritten` and shown by `AsWrittenAcceptsFutureDob` (see "Findings").

## Behaviour a caller might not expect

The model follows the code in each of these cases:

- `TokenAuth.HandleRefreshOutcome`: a successful refresh whose access or refresh token is null or blank gives up on the request but does **not** clear storage. A caller might expect such a reply to clear the session; the code keeps it.
- The same holds for a successful refresh status with no body. It is not a 401, so the request is dropped and storage is kept.
- Only `/auth/login`, `/auth/refresh` and `/auth/logout` are excluded from refreshing. Registration and password-reset paths are not excluded.
- A stored login is always required before a refresh is attempted. Without one, the request is dropped and storage is left unchanged.
- `AuthRepository.refreshTokens` stores whatever tokens a successful reply with a body carries, blank ones included. Only a missing body or an error clears storage.

## Findings

| source | as written | input that shows it | evidently intended | confidence | as-written member | corrected member |
|---|---|---|---|---|---|---|
| app/src/main/java/app/belqax/pature/activity/AnimalFormActivity.java:606-625 | the date-of-birth block is entered only when `dob != null && !isValidDate(dob)`, so for a parsable date the future-date check and the age recomputation never run | date of birth "2999-01-01" | reject a date of birth in the future and recompute the age from any parsable one | not executed | AnimalForm.AsWrittenAcceptsFutureDob | AnimalForm.ValidateRejectsFutureDob |
