# About You Android SDK: sign-in dialog and request builders in Dafny

This project models the core of the About You Android SDK.

The main part is the embedded-browser sign-in dialog `AuthWebDialog`. It runs a single-shot OAuth 2.0 implicit grant (section 4.2 of RFC 6749) and has three parts:

- **Authorization request** (module `AuthRequest`). The constructor fills a parameter Bundle with `client_id`, `redirect_uri`, `response_type=token`, `popup=true` and the space-joined `scope`. It adds `register=true` only in REGISTER mode.
  - `BuildParameters` keeps the source's StringBuilder loop and its final `deleteCharAt(length - 1)`. That call throws on an empty scope list.
  - `BuildParameters` is proved equal to the specification function `AuthorizationParameters`.
  - The scope string is proved to split back into the requested list.
- **Navigation classifier** (module `Navigation`). `Classify` is the first-match-wins prefix test of `shouldOverrideUrlLoading`: shop or mobile shop, then redirect URL, then everything else.
- **Outcome latch and teardown** (modules `DialogFlow` and `AuthDialog`).
  - `DialogFlow` is a pure state machine with one `Step` per callback. It logs delivered outcomes and platform actions.
  - `DialogFlow` proves the latch theorem `AtMostOneOutcome`: any event sequence delivers at most one outcome, and that outcome belongs to the first event that tries to deliver one.
  - `AuthDialog.AuthWebDialog` is the class with the source's fields and one method per callback. Each callback method (`OnCreate`, `ShouldOverrideUrlLoading`, the error, page, cancel, close, attach and detach handlers, and `Dismiss`) is proved to change the state exactly as the matching `Step` does, so the theorem holds for every sequence of callback calls.
  - `SendToListener` stands for the private `send*ToListener` helpers. Only the callback methods call it. Dafny has no private methods, so a direct call from outside is possible in the model but not in the source, and the theorem does not cover such calls.

The smaller parts are:

- the scope-name table `AuthScope` (module `AuthScopes`);
- the facet lookup `Attributes`;
- the request builders for product search, facets, autocompletion and basket.

Each builder is a class with the source's nullable fields as `Option`s. Each setter changes only its own field and returns the same builder. `Build` returns a fresh request whose payload copies the fields.

The methods `AuthDialog.RedirectThenCancel`, `ProductSearchRequests.LastWriteWins`, `FacetRequests.OnlyLimitSet`, `AutocompleteRequests.SearchwordSurvivesSetters` and `BasketGetRequests.BuildTwice` are client examples. They show what a caller can prove from the contracts alone.

Points where the code behaves differently from what a reader of the protocol might expect:

- **Token check.** A redirect counts as success whenever `access_token` is non-null, even if it is empty. The code checks only for null (`AuthWebDialog.java:289`).
- **Construction errors.** An empty client id or redirect URL is accepted. For non-null arguments, the only exception the constructor's own code raises is the one an empty scope list causes at `deleteCharAt` (`AuthWebDialog.java:99`). What `UrlUtil.buildUri` may throw is not part of this model.
- **Scope order.** Scopes are a list, not a set. They are joined in list order, and duplicates are kept.
- **Number of outcomes.** An outcome is delivered at most once, not exactly once. With no listener nothing is delivered. A direct `dismiss()` never delivers `onAbort`; only the cancel listeners and the close icon do.

## Model

| member | source | states |
|---|---|---|
| AuthScopes.ScopeName | lib/src/main/java/de/sliceanddice/maryandpaul/lib/enums/AuthScope.java:5-15 | getScope returns the constant's string; no string is empty or contains a space |
| AuthScopes.ScopeOf | lib/src/main/java/de/sliceanddice/maryandpaul/lib/enums/AuthScope.java:5 | a string maps back to a constant only if that constant's name is the string |
| AuthScopes.ScopeOfName | lib/src/main/java/de/sliceanddice/maryandpaul/lib/enums/AuthScope.java:5-15 | reading a constant's name back gives the constant |
| AuthScopes.ScopeNameInjective | lib/src/main/java/de/sliceanddice/maryandpaul/lib/enums/AuthScope.java:5 | the four constants have four distinct strings |
| AuthRequest.ScopeParameter | library/src/main/java/de/aboutyou/internal/widget/AuthWebDialog.java:94-101 | the scope parameter fails exactly when the scope list is empty |
| AuthRequest.TerminatedIsJoinedPlusSpace | library/src/main/java/de/aboutyou/internal/widget/AuthWebDialog.java:94-99 | after the loop the builder holds the space-joined names plus one trailing space, so deleting the last character leaves the joined names |
| AuthRequest.AuthorizationParameters | library/src/main/java/de/aboutyou/internal/widget/AuthWebDialog.java:87-105 | client_id, redirect_uri, response_type=token, popup=true and scope are always present; register=true is present iff the mode is REGISTER; no other key exists; an empty scope list is an error |
| AuthRequest.BuildParameters | library/src/main/java/de/aboutyou/internal/widget/AuthWebDialog.java:87-105 | the Bundle-filling and StringBuilder loop computes exactly AuthorizationParameters, including the error on an empty list |
| AuthRequest.SplitJoined | library/src/main/java/de/aboutyou/internal/widget/AuthWebDialog.java:94-101 | words without spaces, joined by single spaces, split back into the same words |
| AuthRequest.ScopeParameterRoundTrip | library/src/main/java/de/aboutyou/internal/widget/AuthWebDialog.java:94-101 | the scope parameter of a non-empty list parses back into exactly that list, in order |
| Navigation.Classify | library/src/main/java/de/aboutyou/internal/widget/AuthWebDialog.java:280-300 | inline iff the URL starts with the shop or mobile shop URL; otherwise, under the redirect URL, success with the token iff access_token is non-null and error iff it is null; otherwise external with the same URL |
| Navigation.ShopWinsOverRedirect | library/src/main/java/de/aboutyou/internal/widget/AuthWebDialog.java:281-283 | a URL under both a shop prefix and the redirect prefix loads inline |
| Navigation.EmptyTokenIsSuccess | library/src/main/java/de/aboutyou/internal/widget/AuthWebDialog.java:288-290 | an empty access_token still counts as success |
| DialogFlow.DismissKeepsLatch | library/src/main/java/de/aboutyou/internal/widget/AuthWebDialog.java:115-126 | dismiss delivers nothing and leaves the latch, the detach flag and the created state unchanged |
| DialogFlow.DismissActions | library/src/main/java/de/aboutyou/internal/widget/AuthWebDialog.java:115-126 | dismiss stops loading first when the web view exists; while detached it does nothing else; while attached it ends with the window dismissed and the spinner hidden |
| DialogFlow.StepLatch | library/src/main/java/de/aboutyou/internal/widget/AuthWebDialog.java:222-241 | one callback delivers the outcome it attempts only when a listener exists and the latch is open, and then closes the latch |
| DialogFlow.RunLatch | library/src/main/java/de/aboutyou/internal/widget/AuthWebDialog.java:222-241 | from any state, a sequence of callbacks adds at most the first attempted outcome, and only through an open latch with a listener |
| DialogFlow.AtMostOneOutcome | library/src/main/java/de/aboutyou/internal/widget/AuthWebDialog.java:72-73 | from a new dialog any callback sequence delivers at most one outcome: the first attempted one if a listener exists, and none without a listener |
| DialogFlow.DetachDoesNotFinalize | library/src/main/java/de/aboutyou/internal/widget/AuthWebDialog.java:128-132 | a detach followed by a redirect with a token still delivers that token |
| DialogFlow.InlineIsInert | library/src/main/java/de/aboutyou/internal/widget/AuthWebDialog.java:281-282 | a shop URL changes no state and logs nothing |
| DialogFlow.ExternalOnlyLaunches | library/src/main/java/de/aboutyou/internal/widget/AuthWebDialog.java:298-299 | any other URL only launches an external viewer: no outcome, no dismiss, latch and detach state unchanged |
| DialogFlow.AttachDetachToggle | library/src/main/java/de/aboutyou/internal/widget/AuthWebDialog.java:128-138 | attach and detach change only the detach flag |
| DialogFlow.DetachGatesSpinner | library/src/main/java/de/aboutyou/internal/widget/AuthWebDialog.java:317-330 | while detached, page start and finish change nothing; while attached they show and hide the spinner |
| DialogFlow.SendStep | library/src/main/java/de/aboutyou/internal/widget/AuthWebDialog.java:222-241 | an outcome is appended iff a listener exists and the latch is open; afterwards the latch is closed iff it was closed before or a listener exists; nothing else changes |
| DialogFlow.DismissStep | library/src/main/java/de/aboutyou/internal/widget/AuthWebDialog.java:115-126 | dismiss leaves the outcome log and the latch unchanged and only appends to the action log |
| DialogFlow.Step | library/src/main/java/de/aboutyou/internal/widget/AuthWebDialog.java:128-335 | any one callback adds at most one outcome, none once the latch is closed or without a listener, and only appends to the action log |
| AuthDialog.AuthWebDialog.Init | library/src/main/java/de/aboutyou/internal/widget/AuthWebDialog.java:107-112 | a new dialog keeps its parameters, prefixes and listener, with both flags false and nothing logged |
| AuthDialog.AuthWebDialog.Open | library/src/main/java/de/aboutyou/internal/widget/AuthWebDialog.java:84-113 | construction fails exactly on an empty scope list; otherwise it gives a fresh dialog with the AuthorizationParameters and the three prefixes |
| AuthDialog.AuthWebDialog.OnCreate | library/src/main/java/de/aboutyou/internal/widget/AuthWebDialog.java:140-177 | after onCreate the web view and spinner exist and the authorization URL is loading |
| AuthDialog.AuthWebDialog.SendToListener | library/src/main/java/de/aboutyou/internal/widget/AuthWebDialog.java:222-241 | an outcome fires and closes the latch only with a listener and an open latch; otherwise nothing changes |
| AuthDialog.AuthWebDialog.Dismiss | library/src/main/java/de/aboutyou/internal/widget/AuthWebDialog.java:115-126 | moves the state as DismissStep does |
| AuthDialog.AuthWebDialog.OnDetachedFromWindow | library/src/main/java/de/aboutyou/internal/widget/AuthWebDialog.java:128-132 | sets the detach flag and nothing else |
| AuthDialog.AuthWebDialog.OnAttachedToWindow | library/src/main/java/de/aboutyou/internal/widget/AuthWebDialog.java:134-138 | clears the detach flag and nothing else |
| AuthDialog.AuthWebDialog.OnDialogCancel | library/src/main/java/de/aboutyou/internal/widget/AuthWebDialog.java:144-149 | attempts an abort through the latch and does not dismiss |
| AuthDialog.AuthWebDialog.OnSpinnerCancel | library/src/main/java/de/aboutyou/internal/widget/AuthWebDialog.java:154-160 | the spinner is hidden; then an abort is attempted through the latch; then the dialog dismisses |
| AuthDialog.AuthWebDialog.OnCloseClick | library/src/main/java/de/aboutyou/internal/widget/AuthWebDialog.java:245-250 | attempts an abort through the latch, then dismisses |
| AuthDialog.AuthWebDialog.ShouldOverrideUrlLoading | library/src/main/java/de/aboutyou/internal/widget/AuthWebDialog.java:279-300 | returns false iff the URL is on a shop prefix; the state moves as the Step for that URL |
| AuthDialog.AuthWebDialog.OnReceivedError | library/src/main/java/de/aboutyou/internal/widget/AuthWebDialog.java:302-307 | attempts an error through the latch, then dismisses |
| AuthDialog.AuthWebDialog.OnReceivedSslError | library/src/main/java/de/aboutyou/internal/widget/AuthWebDialog.java:309-315 | attempts an error through the latch, cancels the SSL handler, then dismisses |
| AuthDialog.AuthWebDialog.OnPageStarted | library/src/main/java/de/aboutyou/internal/widget/AuthWebDialog.java:317-323 | shows the spinner unless detached |
| AuthDialog.AuthWebDialog.OnPageFinished | library/src/main/java/de/aboutyou/internal/widget/AuthWebDialog.java:325-335 | hides the spinner unless detached |
| Attributes.Get | library/src/main/java/de/aboutyou/models/Attributes.java:10-16 | null iff the group's id is not a key; otherwise the list stored under that id |
| Attributes.Contains | library/src/main/java/de/aboutyou/models/Attributes.java:18-20 | contains holds iff the map has the group's id as a key |
| Attributes.GetAgreesWithContains | library/src/main/java/de/aboutyou/models/Attributes.java:18-20 | contains holds iff get returns a list |
| Attributes.GetDependsOnlyOnId | library/src/main/java/de/aboutyou/models/Attributes.java:10-12 | groups with the same id read the same entry, even when they are distinct groups |
| CollinsRequest.ValidateNotEmpty | library/src/main/java/de/aboutyou/request/ProductSearchRequest.java:84-89 | a null or empty argument is rejected with an error that names it; otherwise the argument passes unchanged |
| ProductSearchRequests.Builder.Init | library/src/main/java/de/aboutyou/request/ProductSearchRequest.java:88-91 | given a session id that passed validateNotEmpty, stores it; every other field is null |
| ProductSearchRequests.Builder.Create | library/src/main/java/de/aboutyou/request/ProductSearchRequest.java:84-91 | fails iff the session id is null or empty; otherwise gives a fresh builder holding it |
| ProductSearchRequests.Builder.FilterByCategories | library/src/main/java/de/aboutyou/request/ProductSearchRequest.java:93-97 | sets only categories and returns the same builder |
| ProductSearchRequests.Builder.FilterByStatus | library/src/main/java/de/aboutyou/request/ProductSearchRequest.java:99-103 | sets only productFilter and returns the same builder |
| ProductSearchRequests.Builder.FilterByMinPrice | library/src/main/java/de/aboutyou/request/ProductSearchRequest.java:105-109 | sets only priceFrom and returns the same builder |
| ProductSearchRequests.Builder.FilterByMaxPrice | library/src/main/java/de/aboutyou/request/ProductSearchRequest.java:111-115 | sets only priceTo and returns the same builder |
| ProductSearchRequests.Builder.FilterBySearchString | library/src/main/java/de/aboutyou/request/ProductSearchRequest.java:117-121 | sets only searchString and returns the same builder |
| ProductSearchRequests.Builder.FilterByFacets | library/src/main/java/de/aboutyou/request/ProductSearchRequest.java:123-127 | sets only facets and returns the same builder |
| ProductSearchRequests.Builder.ListSaleDetails | library/src/main/java/de/aboutyou/request/ProductSearchRequest.java:129-133 | sets only listSaleDetails and returns the same builder |
| ProductSearchRequests.Builder.ListPriceDetails | library/src/main/java/de/aboutyou/request/ProductSearchRequest.java:135-139 | sets only listPriceDetails and returns the same builder |
| ProductSearchRequests.Builder.ListCategoriesWithResults | library/src/main/java/de/aboutyou/request/ProductSearchRequest.java:141-145 | sets only listCategories and returns the same builder |
| ProductSearchRequests.Builder.Limit | library/src/main/java/de/aboutyou/request/ProductSearchRequest.java:147-150 | sets only limit and returns the same builder |
| ProductSearchRequests.Builder.Offset | library/src/main/java/de/aboutyou/request/ProductSearchRequest.java:152-155 | sets only offset and returns the same builder |
| ProductSearchRequests.Builder.SortBy | library/src/main/java/de/aboutyou/request/ProductSearchRequest.java:157-161 | sets only the sort key and its direction, together, and returns the same builder |
| ProductSearchRequests.Builder.Build | library/src/main/java/de/aboutyou/request/ProductSearchRequest.java:163-188 | gives a fresh request and leaves the builder unchanged; the session id is copied; sale is null without a filter and the filter's value otherwise; prices and sort are always present; the three list flags map to the show flags; everything else is copied unchanged |
| ProductSearchRequests.ProductSearchRequest.constructor | library/src/main/java/de/aboutyou/request/ProductSearchRequest.java:184-185 | the request carries the given payload |
| FacetRequests.Builder.constructor | lib/src/main/java/de/sliceanddice/maryandpaul/lib/requests/FacetRequest.java:22-24 | every field starts null |
| FacetRequests.Builder.FilterByFacetGroup | lib/src/main/java/de/sliceanddice/maryandpaul/lib/requests/FacetRequest.java:26-29 | sets only facetGroups and returns the same builder |
| FacetRequests.Builder.Limit | lib/src/main/java/de/sliceanddice/maryandpaul/lib/requests/FacetRequest.java:31-34 | sets only limit and returns the same builder |
| FacetRequests.Builder.Offset | lib/src/main/java/de/sliceanddice/maryandpaul/lib/requests/FacetRequest.java:36-39 | sets only offset and returns the same builder |
| FacetRequests.Builder.Build | lib/src/main/java/de/sliceanddice/maryandpaul/lib/requests/FacetRequest.java:41-51 | gives a fresh request carrying facetGroups, limit and offset unchanged; the builder is unchanged |
| FacetRequests.FacetRequest.constructor | lib/src/main/java/de/sliceanddice/maryandpaul/lib/requests/FacetRequest.java:42-48 | the request carries the given payload |
| AutocompleteRequests.Builder.constructor | lib/src/main/java/de/sliceanddice/maryandpaul/lib/requests/AutocompleteRequest.java:25-27 | stores the search word without any check; limit and types start null |
| AutocompleteRequests.Builder.Limit | lib/src/main/java/de/sliceanddice/maryandpaul/lib/requests/AutocompleteRequest.java:29-32 | sets only limit and returns the same builder |
| AutocompleteRequests.Builder.FilterByTypes | lib/src/main/java/de/sliceanddice/maryandpaul/lib/requests/AutocompleteRequest.java:34-37 | sets only types and returns the same builder |
| AutocompleteRequests.Builder.Build | lib/src/main/java/de/sliceanddice/maryandpaul/lib/requests/AutocompleteRequest.java:39-49 | gives a fresh request carrying searchword, limit and types unchanged; the builder is unchanged |
| AutocompleteRequests.AutocompleteRequest.constructor | lib/src/main/java/de/sliceanddice/maryandpaul/lib/requests/AutocompleteRequest.java:40-46 | the request carries the given payload |
| BasketGetRequests.Builder.Init | library/src/main/java/de/aboutyou/request/BasketGetRequest.java:18-21 | given a session id that passed validateNotEmpty, stores it |
| BasketGetRequests.Builder.Create | library/src/main/java/de/aboutyou/request/BasketGetRequest.java:18-21 | fails iff the session id is null or empty; otherwise gives a fresh builder holding it |
| BasketGetRequests.Builder.Build | library/src/main/java/de/aboutyou/request/BasketGetRequest.java:23-31 | gives a fresh request whose payload is exactly the stored session id; the builder is unchanged |
| BasketGetRequests.BasketGetRequest.constructor | library/src/main/java/de/aboutyou/request/BasketGetRequest.java:24-28 | the request carries the given payload |

## Left out

- Dialog sizing (`calculateSize`, `getScaledSize`) is left out. It is floating-point arithmetic with truncating casts over display metrics.
- Android view plumbing is left out: `onCreate`'s layout work, `createCrossImage`, `setUpWebView`, `resolveDialogTheme`, and the background and visibility changes in `onPageFinished`. `OnCreate` keeps only their effect on the dialog's state: the web view and spinner exist, and the URL starts loading.
- `UrlUtil.buildUri` and `UrlUtil.parseUrl` are not part of this model.
  - The authorization URL is represented by its parameter map.
  - The shop and mobile shop URLs, which the source builds from the `Endpoint`, are given to `Open` directly as strings. `Endpoint` is not part of this model.
  - Reading `access_token` from a URL is an uninterpreted function `accessTokenOf` fixed at construction.
- Platform side effects are recorded in a ghost log and never performed: `startActivity`, `stopLoading`, the superclass `dismiss`, spinner show and dismiss, and `SslErrorHandler.cancel`.
- Callbacks are modelled as arriving one at a time on the UI thread. The atomicity of the latch under real concurrency is not modelled.
- The dialog's own cancel listener models only what the listener does. The platform's dismissal that accompanies a cancel arrives as a separate `Dismiss` call.
- `DialogFlow.Step` gives every callback a meaning in every state. The `AuthWebDialog` methods for callbacks that exist only after `onCreate` require `created`.
- `AuthDialog.AuthWebDialog.Init` stands for the field assignments that end the Java constructor. It accepts any parameter map and prefixes; only `Open`, the Java constructor, guarantees that they come from `AuthorizationParameters` and the given URLs.
- `dismiss()` before `onCreate` on an attached dialog dereferences the null spinner. The model logs this as `NullSpinnerDereference` and stops there. It does not model how the exception propagates.
- The `de.aboutyou.enums.AuthScope` that the dialog imports is not part of this model. The scope strings are those of the `lib/` copy of `AuthScope`.
- Several enums are not part of this model: `AuthenticationRequestMode`, `FacetGroup`, `FacetType`, `Sortby`, `Direction`, `ProductFilter` and the autocompletion `Type`.
  - Each is represented by what the modelled code reads from it: the mode constants, `getId()`, `getValue()`, or an opaque name.
  - Both `FacetGroup` classes share one stand-in.
- `validateNotEmpty` is modelled by an assumed stand-in, `CollinsRequest.ValidateNotEmpty`, because its source is not part of this model. The stand-in rejects null and empty strings, as the builder's documentation says.
- Null arguments are not modelled: null strings passed as `clientId`, `redirectUrl` or `url`, a null `scopes` list (the for-each at `AuthWebDialog.java:95` throws), and a null `endpoint` (`endpoint.getAuthAuthority()` at `AuthWebDialog.java:107` throws). Neither are null list elements or null values stored in an `Attributes` map.
- Gson serialisation (wire field names, JSON layout) is left out, and so is `AutocompleteTypeAdapter`.
- `CategoryTreeTest` is left out. It drives a client and a `CategoryTree` model that are not part of this model.
- Request payloads are Dafny values inside a freshly allocated request object. The nested payload objects that `build` allocates are never changed after `build`, so their identity is not modelled.
- Aliasing of caller-owned lists and maps is not modelled. The model copies values, not references.
  - In Java, the setters store the caller's own `List` or `Map`: `categories` and `facets` in the product search builder, `facetGroups` in the facet builder, and `types` in the autocompletion builder. `build` puts that same object into the payload.
  - The list that `Attributes.get` returns is the one stored in the map.
  - So in Java, a caller who changes such a list or map afterwards also changes the builder, every request already built from it, and the attributes map. Two builds share one list. The model does not capture any of this: each field holds an immutable `seq` or `map` value.
