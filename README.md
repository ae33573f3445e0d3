# Gaia authentication fetcher, bookmark context menu and audio sync reader

This project models three pieces of the Chromium browser in Dafny and proves
properties about them.

**Gaia authentication fetcher** (`GaiaAuthFetcher`). This is the object that
talks to Google's account servers.
- Its static parsers read ClientLogin bodies, which are newline-separated
  `key=value` lines:
  - a success body gives SID, LSID and Auth;
  - a failure body gives Error, Url, CaptchaUrl and CaptchaToken.
- It detects the second-factor marker line.
- It pulls the authorization code out of the `oauth_code=` cookie that the
  ClientLogin-to-OAuth2 exchange sets.
- Its classifiers turn a failed response into a `GoogleServiceAuthError`:
  - a transport failure becomes a connection error;
  - the marker becomes TWO_FACTOR;
  - otherwise the state comes from the Error code table (ClientLogin codes, or
    the short OAuthLogin codes), and CaptchaRequired becomes a captcha
    challenge.
- The fetcher object has a "fetch pending" state machine:
  - every `Start*` request makes a fetch pending;
  - a completed fetch clears it and makes exactly one consumer call;
  - a successful first step of the OAuth2 exchange starts the token-pair fetch
    at once, with the cookie's code.

The behaviour is pinned by the fetcher's unit test. The model proves each
test case not listed under "Left out" as a lemma, about general inputs where
the case allows it and about the test's own values where it is a table of
concrete inputs (the error codes, the incomplete cookies).
- `Strings`, `GaiaParsing`, `GoogleServiceAuthErrors` and `GaiaAuth` hold the
  definitions.
- `GaiaAuthExamples` holds the test cases.

**Bookmark context menu** (`BookmarkContextMenuControllerViews`), in module
`BookmarkContextMenu`.
- `BuildMenu` lists items section by section for the menu's configuration and
  selection.
- `IsCommandEnabled` decides each command.
- `HasURLs` searches the selection for a URL.
- `ExecuteCommand` first detaches the controller from the bookmark model. For
  Remove it brackets the model removals with the delegate's notifications and
  then empties the selection. Cut is bracketed the same way, and Sort asks the
  model to sort the parent folder.
- The delegate and the model are classes that record what they are asked to
  do.

**Audio sync reader** (`AudioSyncReader::Read`), in module `AudioSync`.
- A read delivers the smallest of three sizes: the requested size, the data
  capacity of the shared buffer, and the data size the writer recorded.
- It copies that many bytes into the caller's buffer, then zeroes the whole
  shared buffer.

## Model

Sources are cited by these paths:
- `chrome/common/net/gaia/gaia_auth_fetcher_unittest.cc` (the Gaia test);
- `chrome/browser/views/bookmark_context_menu_controller_views.cc`;
- `content/browser/renderer_host/media/audio_sync_reader.cc`.

| member | source | states |
|---|---|---|
| GaiaParsing.LinePair | chrome/common/net/gaia/gaia_auth_fetcher_unittest.cc:143-179 | a body line yields a pair exactly when it contains '='; the key holds no '=' and the line is key, '=', value |
| GaiaParsing.LinePairsConcat | chrome/common/net/gaia/gaia_auth_fetcher_unittest.cc:312-320 | the pairs of two runs of lines are the pairs of each, in order |
| GaiaParsing.BodyPairsConcat | chrome/common/net/gaia/gaia_auth_fetcher_unittest.cc:312-320 | two bodies joined by a newline give the first body's pairs, then the second's |
| GaiaParsing.BodyPairsOfSerialize | chrome/common/net/gaia/gaia_auth_fetcher_unittest.cc:312-335 | a body written from well-formed entries parses back to exactly those entries, in order |
| GaiaParsing.LastValueComesFromPair | chrome/common/net/gaia/gaia_auth_fetcher_unittest.cc:143-179 | a non-empty field value is the value of some pair carrying that key |
| GaiaParsing.LastValueOfUniqueKey | chrome/common/net/gaia/gaia_auth_fetcher_unittest.cc:312-335 | when one pair carries a key, its value is read wherever the pair stands |
| GaiaParsing.LastValueOfAbsentKey | chrome/common/net/gaia/gaia_auth_fetcher_unittest.cc:316-319 | a key no pair carries reads as "" |
| GaiaParsing.FieldValueComesFromLine | chrome/common/net/gaia/gaia_auth_fetcher_unittest.cc:143-179 | a non-empty field value comes from a line `key=value` of the body |
| GaiaParsing.FieldValueOfSerialize | chrome/common/net/gaia/gaia_auth_fetcher_unittest.cc:312-335 | in a body with one line per key, each key reads as its line's value and a missing key reads as "" |
| GaiaParsing.FieldValueIgnoresLineOrder | chrome/common/net/gaia/gaia_auth_fetcher_unittest.cc:313-314 | reordering the lines of such a body changes no field value |
| GaiaParsing.FieldValueIgnoresTrailingNewline | chrome/common/net/gaia/gaia_auth_fetcher_unittest.cc:313-315 | a final newline is optional |
| GaiaParsing.FieldValueIgnoresLeadingNewline | chrome/common/net/gaia/gaia_auth_fetcher_unittest.cc:318 | a leading blank line is skipped |
| GaiaParsing.FieldValueIgnoresBlankLine | chrome/common/net/gaia/gaia_auth_fetcher_unittest.cc:331-334 | a blank line between two lines is skipped |
| GaiaParsing.ParseClientLoginResponseOfLines | chrome/common/net/gaia/gaia_auth_fetcher_unittest.cc:312-320 | for any body of distinct lines in any order, with or without a final newline, SID, LSID and Auth are their lines' values, or "" when a line is missing |
| GaiaParsing.ParseClientLoginFailureOfLines | chrome/common/net/gaia/gaia_auth_fetcher_unittest.cc:322-335 | the same for Error, Url, CaptchaUrl and CaptchaToken of a failure body |
| GaiaParsing.ParseClientLoginResponseIgnoresBlankLines | chrome/common/net/gaia/gaia_auth_fetcher_unittest.cc:318 | leading and inner blank lines do not change the success tokens |
| GaiaParsing.ParseClientLoginFailureIgnoresBlankLines | chrome/common/net/gaia/gaia_auth_fetcher_unittest.cc:331-334 | leading and inner blank lines do not change the failure fields |
| GaiaParsing.SecondFactorDetected | chrome/common/net/gaia/gaia_auth_fetcher_unittest.cc:374-379 | a body carrying the second-factor marker anywhere is a second-factor success |
| GaiaParsing.SecondFactorOnlyWithMarker | chrome/common/net/gaia/gaia_auth_fetcher_unittest.cc:374-384 | a body is a second-factor success exactly when the marker occurs somewhere in it |
| GaiaParsing.NoSecondFactorWithoutI | chrome/common/net/gaia/gaia_auth_fetcher_unittest.cc:381-384 | a body without the marker's first character is not a second-factor success |
| GaiaParsing.CookiePartsOfJoin | chrome/common/net/gaia/gaia_auth_fetcher_unittest.cc:34-41 | a cookie written as ';'-separated attributes splits back into those attributes, trimmed |
| GaiaParsing.FirstCode | chrome/common/net/gaia/gaia_auth_fetcher_unittest.cc:34-41 | a code is found exactly when some part starts with `oauth_code=`, and the found code follows that prefix in a part |
| GaiaParsing.CookieAuthCodeParts | chrome/common/net/gaia/gaia_auth_fetcher_unittest.cc:34-41 | a cookie carries a code exactly when it has Secure and HttpOnly parts and a part starting with `oauth_code=`, and the code follows that prefix |
| GaiaParsing.FirstCodeFrom | chrome/common/net/gaia/gaia_auth_fetcher_unittest.cc:826-863 | the scan succeeds exactly when some code is present; a failure carries "" and a success carries a present code |
| GaiaParsing.ParseClientLoginToOAuth2Response | chrome/common/net/gaia/gaia_auth_fetcher_unittest.cc:826-863 | succeeds exactly when some cookie carries a code; on failure the code is "", on success it is one a cookie carries |
| GaiaParsing.NoCookieCode | chrome/common/net/gaia/gaia_auth_fetcher_unittest.cc:827-843 | when no cookie carries a code, the result is not found with "" |
| GaiaParsing.FirstCookieCodeDecides | chrome/common/net/gaia/gaia_auth_fetcher_unittest.cc:844-862 | the first cookie carrying a code decides the result, whatever follows it |
| GaiaParsing.GaiaCookieParts | chrome/common/net/gaia/gaia_auth_fetcher_unittest.cc:34-35 | the cookie Gaia sets splits into the code part, the path part, Secure and HttpOnly |
| GaiaParsing.AuthCodeCookieRoundTrip | chrome/common/net/gaia/gaia_auth_fetcher_unittest.cc:34-35 | the code written into Gaia's cookie is the code read back from it |
| GoogleServiceAuthErrors.ConnectionErrorsEqualIffCodesEqual | chrome/common/net/gaia/gaia_auth_fetcher_unittest.cc:229-249 | two connection errors are equal exactly when their network codes are |
| GoogleServiceAuthErrors.NoErrorIsNotAConnectionError | chrome/common/net/gaia/gaia_auth_fetcher_unittest.cc:229-249 | the NONE error differs from every connection error |
| GaiaAuth.ClientLoginState | chrome/common/net/gaia/gaia_auth_fetcher_unittest.cc:425-455 | agrees with the ClientLogin code table; a code the table lacks is SERVICE_UNAVAILABLE |
| GaiaAuth.OAuthLoginState | chrome/common/net/gaia/gaia_auth_fetcher_unittest.cc:457-495 | agrees with the OAuthLogin short-code table; a code the table lacks is SERVICE_UNAVAILABLE |
| GaiaAuth.GenerateAuthError | chrome/common/net/gaia/gaia_auth_fetcher_unittest.cc:386-455 | a transport failure becomes a connection error with its code; otherwise the marker gives TWO_FACTOR, and without it the state comes from the table; a captcha error carries the body's challenge, and any other error carries no detail |
| GaiaAuth.GenerateOAuthLoginError | chrome/common/net/gaia/gaia_auth_fetcher_unittest.cc:457-495 | the same order of checks, with the OAuthLogin table |
| GaiaAuth.GenerateAuthErrorOfLines | chrome/common/net/gaia/gaia_auth_fetcher_unittest.cc:406-455 | for any body of distinct lines without the marker, the error's state is its Error code's; CaptchaRequired yields the challenge with the image URL resolved under the accounts base |
| GaiaAuth.GenerateOAuthLoginErrorOfLines | chrome/common/net/gaia/gaia_auth_fetcher_unittest.cc:457-495 | for any body of distinct lines without the marker, the error is its Error code's state |
| GaiaAuth.SecondFactorBeatsErrorCode | chrome/common/net/gaia/gaia_auth_fetcher_unittest.cc:386-404 | whatever else the body says, the marker makes both classifiers report TWO_FACTOR |
| GaiaAuth.LoginResult | chrome/common/net/gaia/gaia_auth_fetcher_unittest.cc:338-358 | the login result holds the parsed SID, LSID and Auth together with the whole body |
| GaiaAuth.Completion | chrome/common/net/gaia/gaia_auth_fetcher_unittest.cc:251-372 | each completed fetch makes a call serving its own endpoint; it is a failure exactly when the fetch did not succeed, carrying the classifier's error; only a successful first OAuth2 step continues the exchange |
| GaiaAuth.TransportFailureIsConnectionError | chrome/common/net/gaia/gaia_auth_fetcher_unittest.cc:251-289 | a transport failure on any endpoint reaches the consumer as a connection error with its code |
| GaiaAuth.RejectedSecondFactorIsTwoFactor | chrome/common/net/gaia/gaia_auth_fetcher_unittest.cc:386-404 | a non-200 answer carrying the marker reaches the consumer as TWO_FACTOR |
| GaiaAuth.GaiaAuthFetcher.constructor | chrome/common/net/gaia/gaia_auth_fetcher_unittest.cc:532-545 | a new fetcher has no pending fetch |
| GaiaAuth.GaiaAuthFetcher.StartClientLogin | chrome/common/net/gaia/gaia_auth_fetcher_unittest.cc:532-547 | a ClientLogin fetch is pending afterwards |
| GaiaAuth.GaiaAuthFetcher.StartIssueAuthToken | chrome/common/net/gaia/gaia_auth_fetcher_unittest.cc:558-568 | an IssueAuthToken fetch for the service is pending afterwards |
| GaiaAuth.GaiaAuthFetcher.StartLsoForOAuthLoginTokenExchange | chrome/common/net/gaia/gaia_auth_fetcher_unittest.cc:598-613 | the first exchange step is pending afterwards |
| GaiaAuth.GaiaAuthFetcher.StartCookieForOAuthLoginTokenExchange | chrome/common/net/gaia/gaia_auth_fetcher_unittest.cc:631-640 | the first exchange step is pending afterwards; the cited test checks only the request's load flags, so the pending effect is inferred from the other `Start*` tests |
| GaiaAuth.GaiaAuthFetcher.StartOAuth2TokenPairFetch | chrome/common/net/gaia/gaia_auth_fetcher_unittest.cc:598-629 | the token-pair fetch with the given code is pending afterwards |
| GaiaAuth.GaiaAuthFetcher.StartTokenAuth | chrome/common/net/gaia/gaia_auth_fetcher_unittest.cc:692-752 | a TokenAuth fetch is pending afterwards |
| GaiaAuth.GaiaAuthFetcher.StartMergeSession | chrome/common/net/gaia/gaia_auth_fetcher_unittest.cc:754-803 | a MergeSession fetch is pending afterwards |
| GaiaAuth.GaiaAuthFetcher.StartTokenFetchForUberAuthExchange | chrome/common/net/gaia/gaia_auth_fetcher_unittest.cc:805-824 | an uber-token fetch is pending afterwards |
| GaiaAuth.GaiaAuthFetcher.StartOAuthLogin | chrome/common/net/gaia/gaia_auth_fetcher_unittest.cc:1012-1034 | an OAuthLogin fetch is pending afterwards; the cited test hands the OAuthLogin response straight to `OnURLFetchComplete`, so the pending effect is inferred from the other `Start*` tests |
| GaiaAuth.GaiaAuthFetcher.OnURLFetchComplete | chrome/common/net/gaia/gaia_auth_fetcher_unittest.cc:532-629 | makes the completion call; a fetch stays pending exactly when the exchange continues, and then the token-pair fetch carries the code from the first step's cookies |
| GaiaAuth.SingleFetch | chrome/common/net/gaia/gaia_auth_fetcher_unittest.cc:532-596 | a single-step request is pending after its start and not after its response |
| GaiaAuth.TwoStepExchange | chrome/common/net/gaia/gaia_auth_fetcher_unittest.cc:598-690 | the exchange is pending after its start; it stays pending after the first step exactly when that step succeeds, and then sends the cookie's code; it is not pending at the end; a failed first step reports OnClientOAuthFailure |
| GaiaAuthExamples.ParseRequestAllKeys | chrome/common/net/gaia/gaia_auth_fetcher_unittest.cc:313-315 | SID, LSID and Auth lines, with or without a final newline, give the three values |
| GaiaAuthExamples.ParseRequestLsidFirst | chrome/common/net/gaia/gaia_auth_fetcher_unittest.cc:314 | the same with the LSID line first |
| GaiaAuthExamples.ParseRequestWithoutLsid | chrome/common/net/gaia/gaia_auth_fetcher_unittest.cc:316 | a missing LSID line reads as "" |
| GaiaAuthExamples.ParseRequestWithoutSid | chrome/common/net/gaia/gaia_auth_fetcher_unittest.cc:317 | a missing SID line reads as "" |
| GaiaAuthExamples.ParseRequestAfterBlankLine | chrome/common/net/gaia/gaia_auth_fetcher_unittest.cc:318 | a leading blank line is skipped |
| GaiaAuthExamples.ParseRequestSidOnly | chrome/common/net/gaia/gaia_auth_fetcher_unittest.cc:319 | a lone SID line gives SID, and "" for the others |
| GaiaAuthExamples.ParseErrorRequestUrlFirst | chrome/common/net/gaia/gaia_auth_fetcher_unittest.cc:323-326 | the four failure fields are read from their lines |
| GaiaAuthExamples.ParseErrorRequestTokenFirst | chrome/common/net/gaia/gaia_auth_fetcher_unittest.cc:327-330 | the same lines in another order give the same fields |
| GaiaAuthExamples.ParseErrorRequestBlankLines | chrome/common/net/gaia/gaia_auth_fetcher_unittest.cc:331-334 | the same lines behind blank lines give the same fields |
| GaiaAuthExamples.LeadingBlankLines | chrome/common/net/gaia/gaia_auth_fetcher_unittest.cc:331 | three leading blank lines do not change the failure fields |
| GaiaAuthExamples.InnerBlankLines | chrome/common/net/gaia/gaia_auth_fetcher_unittest.cc:331-333 | blank lines after the first two lines do not change the failure fields |
| GaiaAuthExamples.WithoutBlankLines | chrome/common/net/gaia/gaia_auth_fetcher_unittest.cc:331-334 | the test's blank-line body reads as the same body without blank lines |
| GaiaAuthExamples.TwoFactorResponse | chrome/common/net/gaia/gaia_auth_fetcher_unittest.cc:374-384 | the error body with the marker line is a second-factor success; the error line alone is not |
| GaiaAuthExamples.TwoFactorLogin | chrome/common/net/gaia/gaia_auth_fetcher_unittest.cc:386-404 | a 403 ClientLogin answer with the marker is reported as OnClientLoginFailure(TWO_FACTOR) |
| GaiaAuthExamples.CaptchaParse | chrome/common/net/gaia/gaia_auth_fetcher_unittest.cc:406-423 | a CaptchaRequired body yields its token, the image URL under the accounts base and the unlock URL |
| GaiaAuthExamples.CaptchaBodyHasNoMarker | chrome/common/net/gaia/gaia_auth_fetcher_unittest.cc:406-423 | the captcha body does not carry the second-factor marker |
| GaiaAuthExamples.ClientLoginErrorLine | chrome/common/net/gaia/gaia_auth_fetcher_unittest.cc:425-455 | a body `Error=<code>` is classified by the ClientLogin table |
| GaiaAuthExamples.OAuthLoginErrorLine | chrome/common/net/gaia/gaia_auth_fetcher_unittest.cc:457-495 | a body `Error=<code>` is classified by the OAuthLogin table |
| GaiaAuthExamples.ErrorCodeTables | chrome/common/net/gaia/gaia_auth_fetcher_unittest.cc:425-495 | the state of each code the tests use, including an unknown code |
| GaiaAuthExamples.ErrorComparator | chrome/common/net/gaia/gaia_auth_fetcher_unittest.cc:229-249 | connection errors with equal codes are equal, with different codes unequal, and NONE differs from both |
| GaiaAuthExamples.LoginNetFailure | chrome/common/net/gaia/gaia_auth_fetcher_unittest.cc:251-269 | a ClientLogin transport failure reports the connection error |
| GaiaAuthExamples.IssueAuthTokenOutcomes | chrome/common/net/gaia/gaia_auth_fetcher_unittest.cc:271-372 | an IssueAuthToken transport failure and a 200 answer are reported with the requested service, and the 200 answer with its token |
| GaiaAuthExamples.TokenAuthOutcomes | chrome/common/net/gaia/gaia_auth_fetcher_unittest.cc:692-752 | a 200 answer hands over the cookies and the page; a 401 answer or a transport failure is a failure |
| GaiaAuthExamples.SessionOutcomes | chrome/common/net/gaia/gaia_auth_fetcher_unittest.cc:754-824 | MergeSession and the uber-token fetch hand their 200 body to the consumer |
| GaiaAuthExamples.LoginDenied | chrome/common/net/gaia/gaia_auth_fetcher_unittest.cc:292-310 | a 403 ClientLogin answer `Error=<code>` reports that code's state |
| GaiaAuthExamples.OnlineLogin | chrome/common/net/gaia/gaia_auth_fetcher_unittest.cc:338-358 | a 200 answer from ClientLogin or OAuthLogin reports the parsed tokens and the body |
| GaiaAuthExamples.CookieNoSecureCarriesNoCode | chrome/common/net/gaia/gaia_auth_fetcher_unittest.cc:36-37 | a cookie without Secure carries no code |
| GaiaAuthExamples.CookieNoHttpOnlyCarriesNoCode | chrome/common/net/gaia/gaia_auth_fetcher_unittest.cc:38-39 | a cookie without HttpOnly carries no code |
| GaiaAuthExamples.CookieNoOAuthCodeParts | chrome/common/net/gaia/gaia_auth_fetcher_unittest.cc:40-41 | the parts of the cookie without a code part |
| GaiaAuthExamples.CookieNoOAuthCodeCarriesNoCode | chrome/common/net/gaia/gaia_auth_fetcher_unittest.cc:40-41 | a cookie without an `oauth_code=` part carries no code |
| GaiaAuthExamples.ParseNoCookies | chrome/common/net/gaia/gaia_auth_fetcher_unittest.cc:827-833 | no cookies: not found, code "" |
| GaiaAuthExamples.ParseIncompleteCookies | chrome/common/net/gaia/gaia_auth_fetcher_unittest.cc:834-843 | the three incomplete cookies: not found, code "" |
| GaiaAuthExamples.ParseValidCookieLast | chrome/common/net/gaia/gaia_auth_fetcher_unittest.cc:844-854 | the incomplete cookies followed by the valid one: found, with its code |
| GaiaAuthExamples.ParseValidCookieOnly | chrome/common/net/gaia/gaia_auth_fetcher_unittest.cc:855-862 | the valid cookie alone: found, with its code |
| BookmarkContextMenu.ContainsUrlIffUrlBelow | chrome/browser/views/bookmark_context_menu_controller_views.cc:27-36 | a node contains a URL exactly when a URL lies at or below it |
| BookmarkContextMenu.NodeHasURLs | chrome/browser/views/bookmark_context_menu_controller_views.cc:27-36 | the recursive search over the children answers whether the node contains a URL |
| BookmarkContextMenu.SelectionHasURLsIffUrlBelow | chrome/browser/views/bookmark_context_menu_controller_views.cc:552-558 | a selection has URLs exactly when a URL lies at or below one of its nodes |
| BookmarkContextMenu.MenuStartsWithOpenAll | chrome/browser/views/bookmark_context_menu_controller_views.cc:230-244 | outside the organize menu, the menu opens with the three open-all commands and a separator, labelled "open in" exactly for a single URL; the organize menu has no open-all command |
| BookmarkContextMenu.RenameFolderIffSingleFolder | chrome/browser/views/bookmark_context_menu_controller_views.cc:246-250 | "rename folder" is listed exactly for a single selected folder, and "edit" otherwise |
| BookmarkContextMenu.ShowInFolderListedIff | chrome/browser/views/bookmark_context_menu_controller_views.cc:252-257 | "show in folder" is listed exactly in the four table and organize-menu configurations |
| BookmarkContextMenu.EditingItemsAlwaysListed | chrome/browser/views/bookmark_context_menu_controller_views.cc:259-275 | cut, copy, paste, remove, add and new folder are always listed |
| BookmarkContextMenu.SortListedIff | chrome/browser/views/bookmark_context_menu_controller_views.cc:267-270 | "sort" is listed exactly in the organize menu |
| BookmarkContextMenu.BookmarkBarItemsListedIff | chrome/browser/views/bookmark_context_menu_controller_views.cc:277-281 | "bookmark manager" and the always-show checkbox are listed exactly on the bookmark bar |
| BookmarkContextMenu.BookmarkContextMenuController.constructor | chrome/browser/views/bookmark_context_menu_controller_views.cc:203-222 | keeps its arguments and registers the controller as an observer of the model |
| BookmarkContextMenu.BookmarkContextMenuController.BuildMenu | chrome/browser/views/bookmark_context_menu_controller_views.cc:229-282 | appends exactly the menu's items for the configuration and selection to the delegate |
| BookmarkContextMenu.BookmarkContextMenuController.AddOpenSection | chrome/browser/views/bookmark_context_menu_controller_views.cc:230-244 | appends the open section |
| BookmarkContextMenu.BookmarkContextMenuController.AddEditSection | chrome/browser/views/bookmark_context_menu_controller_views.cc:246-257 | appends rename or edit, and "show in folder" where offered |
| BookmarkContextMenu.BookmarkContextMenuController.AddClipboardSection | chrome/browser/views/bookmark_context_menu_controller_views.cc:259-265 | appends the clipboard and remove items |
| BookmarkContextMenu.BookmarkContextMenuController.AddSortSection | chrome/browser/views/bookmark_context_menu_controller_views.cc:267-270 | appends "sort" in the organize menu |
| BookmarkContextMenu.BookmarkContextMenuController.AddNewSection | chrome/browser/views/bookmark_context_menu_controller_views.cc:272-275 | appends the add and new-folder items |
| BookmarkContextMenu.BookmarkContextMenuController.AddBarSection | chrome/browser/views/bookmark_context_menu_controller_views.cc:277-281 | appends the bookmark-bar items on the bookmark bar |
| BookmarkContextMenu.BookmarkContextMenuController.HasURLs | chrome/browser/views/bookmark_context_menu_controller_views.cc:552-558 | answers whether some selected node contains a URL |
| BookmarkContextMenu.BookmarkContextMenuController.IsCommandEnabled | chrome/browser/views/bookmark_context_menu_controller_views.cc:452-498 | the enabling rule of each command; the commands acting on the selection are disabled for an empty selection and for a permanent folder selected alone, the incognito commands off the record, and open-all for a selection without URLs |
| BookmarkContextMenu.BookmarkContextMenuController.RemoveModelObserver | chrome/browser/views/bookmark_context_menu_controller_views.cc:545-550 | the controller leaves the model's observers and forgets the model; nothing else changes |
| BookmarkContextMenu.BookmarkContextMenuController.ModelChanged | chrome/browser/views/bookmark_context_menu_controller_views.cc:500-543 | every observed model change closes the menu |
| BookmarkContextMenu.CopyToClipboard | chrome/browser/views/bookmark_context_menu_controller_views.cc:421-429 | with the remove flag set (Cut) the model removes each given node in order; without it (Copy) the model is left as it was |
| BookmarkContextMenu.BookmarkContextMenuController.ExecuteCommand | chrome/browser/views/bookmark_context_menu_controller_views.cc:284-445 | detaches from the model before changing it, so every model change the command makes notifies the observers other than the controller and none reaches the controller; Remove and Cut have the model remove each selected node in order between the delegate's will/did notifications, and Remove then empties the selection; Copy removes nothing; Sort sorts the parent; the delegate's items stay as they were |
| BookmarkContextMenu.ShowInFolderListedButEnabledOnlyForOther | chrome/browser/views/bookmark_context_menu_controller_views.cc:474-477 | "show in folder" is listed in the plain table and organize menu but enabled only in their "other" variants, and only for a single node |
| BookmarkContextMenu.RootChildMenuEditingDisabled | chrome/browser/views/bookmark_context_menu_controller_views.cc:452-489 | for a single root child, every editing command the menu lists is disabled |
| BookmarkContextMenu.OpenAllEnabledIffUrlBelow | chrome/browser/views/bookmark_context_menu_controller_views.cc:460-465 | open-all in a tab or window is enabled exactly when a URL lies at or below a selected node; incognito also needs a normal profile |
| BookmarkContextMenu.ListedEditItemEnabledIff | chrome/browser/views/bookmark_context_menu_controller_views.cc:467-469 | the menu lists exactly one of rename and edit, and that one is enabled exactly for one selected node that is not a direct child of the root |
| BookmarkContextMenu.SortOfferedIff | chrome/browser/views/bookmark_context_menu_controller_views.cc:479-480 | sort is listed and enabled exactly in the organize menu opened on a folder other than the root |
| BookmarkContextMenu.BarItemsOffered | chrome/browser/views/bookmark_context_menu_controller_views.cc:497 | on the bookmark bar, the manager item and the always-show checkbox are listed and enabled whatever the selection |
| AudioSync.ReadSize | content/browser/renderer_host/media/audio_sync_reader.cc:27-31 | a read exceeds none of the three bounds and meets one of them |
| AudioSync.FullReadIffRequestFits | content/browser/renderer_host/media/audio_sync_reader.cc:27-31 | the whole request is served exactly when it fits both the capacity and the data present |
| AudioSync.AudioSyncReader.ReadAfterReadDeliversZeros | content/browser/renderer_host/media/audio_sync_reader.cc:34-37 | two reads on one reader with no write between them: each returns its read size, every byte the second copies into its caller's buffer is zero, and the shared buffer is zero afterwards |
| AudioSync.AudioSyncReader.constructor | content/browser/renderer_host/media/audio_sync_reader.cc:14-16 | the reader keeps the shared buffer |
| AudioSync.AudioSyncReader.Read | content/browser/renderer_host/media/audio_sync_reader.cc:26-39 | returns the read size; the caller's buffer begins with that many bytes of the data region and keeps its other bytes; the whole shared buffer is zero afterwards |

## Left out

- The fetcher's implementation file (`gaia_auth_fetcher.cc`) is not part of this model. Its rules are inferred from the unit test's expectations:
  - the body format and the rule that the last line for a key wins;
  - that a line is split at its first '=' and the value is the rest taken verbatim, so a value may itself begin with '=' or keep surrounding spaces, and a key keeps its spaces (the test pins neither whitespace handling nor values starting with '=');
  - the marker text `Info=InvalidSecondFactor`;
  - the error-code tables and the cookie rules.
- The `Start*` methods are modelled only as marking a fetch pending (and recording the service or code they carry):
  - building and sending the HTTP requests is not modelled;
  - neither are URLs, headers and load flags.
- The tests driven by a mocked fetcher factory (`FullLogin`, `FullLoginFailure`) are left out. Their responses come from that factory and are not modelled.
- The ClientOAuth tests (`ClientOAuth*`, lines 865-1010) and the JSON bodies of the token-pair responses are left out. JSON parsing is not part of this model.
- GaiaAuth.Completion: a successful token-pair fetch hands its raw body to the consumer. The refresh and access tokens are not parsed out of its JSON.
- GoogleServiceAuthErrors: only the state, the network error and the captcha fields are modelled. The second-factor details and the captcha image size are left out.
- Bookmark tree:
  - `BookmarkNode::is_folder()` is taken to mean "not a URL", because the node header is not part of this model;
  - the configuration values are the ones the controller compares against, because the header declaring them is not part of this model.
- `BookmarkModel::Remove` and `SortChildren` are recorded rather than performed, so the tree update itself is not modelled. Each records the set of observers it notifies; the observer callbacks themselves (such as `BookmarkNodeRemoved` closing the menu) are not run.
- `GetParentForNewNodes` and `CanPasteFromClipboard` (bookmark utilities outside this file) become inputs (`Queries`).
- BookmarkContextMenu.BookmarkContextMenuController.ExecuteCommand: these commands change nothing in the model beyond detaching the controller:
  - opening tabs and windows;
  - the editor and folder dialogs;
  - the bookmark manager;
  - preferences, metrics and clipboard contents, including Paste (Paste inserts into the model through the clipboard utilities, and node insertions are not recorded).
  The clipboard write of Cut and Copy is not modelled. That Cut removes the selected nodes is taken from the `true` (remove the nodes) argument it passes to `bookmark_utils::CopyToClipboard`, whose source is not part of this model. The `NOTREACHED` default does nothing.
- `IsItemChecked` reads a preference, so it is left out.
- The destructors, which detach the controller from the model as `RemoveModelObserver` does, and `EditFolderController` are left out. Dafny has no destructors, and the folder editor is a dialog.
- The controller's `model != null` precondition on `IsCommandEnabled`, `ExecuteCommand` and `RemoveModelObserver` reflects that the model is set while the menu is shown: only `RemoveModelObserver` sets it to null, and the controller is not used after that.
- AudioSyncReader:
  - `UpdateBufferState`, `Close`, `Init` and `PrepareForeignSocketHandle` are left out, because they are sockets and inter-process handles;
  - the `media::` packet-size helpers become parameters: the data offset, the data capacity and the data size the writer recorded.
