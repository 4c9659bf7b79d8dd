# Payment client logic of the Stripe iOS SDK, modelled in Dafny

The repository describes itself as a set of server handlers for payments. The only
server code it ships is a customer-provisioning trigger, which is pure database and
network I/O. The sequential logic the repository does contain is in the Stripe iOS SDK
sources it vendors. This project models five parts of that SDK and proves their
properties:

- **Link account** (`link_account.dfy`, module `LinkAccount`):
  - the session state (requires sign-up, requires verification, verified) derived
    from an optional consumer session;
  - sign-up, SMS verification and logout, each guarded by that state;
  - the cookies written on logout;
  - the payment-details and payment-method types usable for an intent;
  - the Link payment method params.
- **Financial Connections host** (`financial_connections_host.dfy`, module
  `FinancialConnectionsHost`):
  - the three-state flow `noManifest → manifestFetched → authSessionComplete`;
  - the sheet result;
  - the latch that hands the delegate at most one result;
  - "Try again", close and swipe-to-dismiss;
  - replies and user actions arriving in any order.
- **Text field element** (`text_field.dfy`, module `TextField`):
  - sanitising text against a configuration;
  - resetting text when the configuration changes;
  - the placeholder and validation part of the view model;
  - the error text;
  - the auto-advance rule on view updates.
- **Phone number element** (`phone_number.dfy`, module `PhoneNumber`):
  - the region list, which always ends in one "Other" entry;
  - the initial region choice;
  - how a default value is read;
  - the picker display names;
  - when `phoneNumberText` is absent;
  - region changes that reconfigure and clear the number field.
- **Form spec decoding** (`form_spec.dfy`, module `FormSpec`):
  - the `"type"`-tagged union of 14 field kinds and its payload structs, decoded
    from a JSON value with the error cases of Swift's synthesized `Decodable`;
  - the trap on an unknown tag;
  - the seven label keys and their localized values.
  - An encoder is the partner: decoding what it produces gives back every field,
    and every form spec, unchanged.

`common.dfy` holds the `Option` type shared by all modules.

Network and session replies are inputs. A method that starts a request takes the
reply as a parameter and runs the callback body on it. What a completion handler
receives is returned as a value, and `NotCalled` stands for the paths on which the
source never calls it. The pieces the source takes from outside are also inputs:
- region metadata and its locale order;
- flag emoji and localized names;
- the E.164 phone library;
- a field configuration's length limit and validation;
- `sha256`.

Swift does not run a property observer for assignments a class makes in its own
initializer. So the phone number element's initial region choice does not clear the
number text; only later region choices do. Likewise, the text field's configuration
given at construction does not reset its text.

Optional equality in Swift treats two absent values as equal. With neither a default
country nor a locale region, the initial region is therefore the "Other" entry, the last
one (`PhoneNumber.NoCountryNoLocaleSelectsOther`). It is not index 0.

## Model

| member | source | states |
|---|---|---|
| LinkAccount.SessionStateOf | ios/Pods/Stripe/Stripe/PaymentSheetLinkAccount.swift:44-51 | requires sign-up exactly when there is no session; with a session, verified exactly when it has a verified SMS session or is verified for sign-up |
| LinkAccount.IsRegisteredOf | ios/Pods/Stripe/Stripe/PaymentSheetLinkAccount.swift:40-42 | registered exactly when the session state is not requires-sign-up |
| LinkAccount.SessionStateRelations | ios/Pods/Stripe/Stripe/PaymentSheetLinkAccount.swift:40-55 | registered iff a session exists iff the state is one of the two signed-in states; a started SMS verification implies registration |
| LinkAccount.AnyStartedSms | ios/Pods/Stripe/Stripe/PaymentSheetLinkAccount.swift:53-55 | true exactly when some verification session is an SMS session in state started |
| LinkAccount.PaymentSheetLinkAccount.SessionState | ios/Pods/Stripe/Stripe/PaymentSheetLinkAccount.swift:44-51 | the account's state: requires sign-up exactly without a session; with one, verified exactly when it has a verified SMS session or is verified for sign-up |
| LinkAccount.PaymentSheetLinkAccount.IsRegistered | ios/Pods/Stripe/Stripe/PaymentSheetLinkAccount.swift:40-42 | registered exactly when the account has a session, that is when it does not require sign-up |
| LinkAccount.PaymentSheetLinkAccount.HasStartedSMSVerification | ios/Pods/Stripe/Stripe/PaymentSheetLinkAccount.swift:53-55 | true exactly when there is a session and one of its verification sessions is an SMS session in state started |
| LinkAccount.Contains | ios/Pods/Stripe/Stripe/PaymentSheetLinkAccount.swift:427 | substring search: true exactly when `sub` occurs in `s` at some index |
| LinkAccount.EmailSupportsMultipleFundingSourcesOnTestMode | ios/Pods/Stripe/Stripe/PaymentSheetLinkAccount.swift:426-428 | true exactly when the e-mail contains `+multiple_funding_sources@` |
| LinkAccount.Lowercase | ios/Pods/Stripe/Stripe/PaymentSheetLinkAccount.swift:333 | same length; every ASCII capital becomes its lower-case letter and every other character is kept |
| LinkAccount.LowercaseIdempotent | ios/Pods/Stripe/Stripe/PaymentSheetLinkAccount.swift:333 | lower-casing twice equals lower-casing once |
| LinkAccount.DetailsTypesFor | ios/Pods/Stripe/Stripe/PaymentSheetLinkAccount.swift:381-399 | the declarative rule: a card exactly when there is a session supporting cards; a bank account exactly when there is a session and either it supports bank accounts with bank onboarding enabled, or the intent is in test mode and the e-mail carries the multiple-funding-sources marker |
| LinkAccount.DetailsTypesBounds | ios/Pods/Stripe/Stripe/PaymentSheetLinkAccount.swift:381-399 | empty without a session; never more than the session's types plus a bank account; the test-mode insert wins over removal for disabled bank onboarding |
| LinkAccount.MethodTypeOf | ios/Pods/Stripe/Stripe/PaymentSheetLinkAccount.swift:405-410 | a card is paid as a card and a bank account by Link instant debit, and nothing else maps to either |
| LinkAccount.MethodTypeOfInjective | ios/Pods/Stripe/Stripe/PaymentSheetLinkAccount.swift:405-410 | distinct details types map to distinct payment method types |
| LinkAccount.CookieStore.Write | ios/Pods/Stripe/Stripe/PaymentSheetLinkAccount.swift:337 | the store maps the key to the value; other entries are unchanged |
| LinkAccount.CookieStore.Delete | ios/Pods/Stripe/Stripe/PaymentSheetLinkAccount.swift:324 | the key is gone; other entries are unchanged |
| LinkAccount.PaymentSheetLinkAccount.constructor | ios/Pods/Stripe/Stripe/PaymentSheetLinkAccount.swift:59-71 | stores the e-mail, session, publishable key, API client and cookie store as given |
| LinkAccount.PaymentSheetLinkAccount.SignUp | ios/Pods/Stripe/Stripe/PaymentSheetLinkAccount.swift:86-122 | the outcome depends on the state and the reply: <br>• outside requires-sign-up: fails with "Don't call sign up if not needed" and changes nothing; <br>• a reply error: fails and changes nothing; <br>• a response: the account takes its session and an API client for its publishable key, so it no longer requires sign-up; <br>• neither an error nor a response: the completion is never called |
| LinkAccount.PaymentSheetLinkAccount.StartVerification | ios/Pods/Stripe/Stripe/PaymentSheetLinkAccount.swift:124-155 | the outcome depends on the state and the reply: <br>• outside requires-verification: reports `false` and changes nothing; <br>• a reply error: fails and changes nothing; <br>• otherwise: the reply's optional session replaces the current one, and the result reports whether SMS verification has started |
| LinkAccount.PaymentSheetLinkAccount.Verify | ios/Pods/Stripe/Stripe/PaymentSheetLinkAccount.swift:157-185 | the outcome depends on the state and the reply: <br>• unless verification is required and SMS verification has started: fails with "Don't call verify if not needed" and changes nothing; <br>• a reply error: fails and changes nothing; <br>• otherwise: succeeds and takes the reply's optional session |
| LinkAccount.PaymentSheetLinkAccount.MarkEmailAsLoggedOut | ios/Pods/Stripe/Stripe/PaymentSheetLinkAccount.swift:332-338 | writes the hash of the lower-cased e-mail under the e-mail cookie key; leaves the store unchanged when there is no hash |
| LinkAccount.PaymentSheetLinkAccount.Logout | ios/Pods/Stripe/Stripe/PaymentSheetLinkAccount.swift:308-330 | depends on whether there was a session: <br>• none: only the completion runs; <br>• one: the completion runs when the reply arrives, the session cookie is deleted, then the hashed e-mail is written, and the account ends without a session (requires sign-up) |
| LinkAccount.PaymentSheetLinkAccount.MakePaymentMethodParams | ios/Pods/Stripe/Stripe/PaymentSheetLinkAccount.swift:353-370 | absent exactly when there is no session; otherwise the details id and the client-secret credential, and a `card.cvc` parameter exactly when the details carry a CVC |
| LinkAccount.PaymentSheetLinkAccount.SupportedPaymentDetailsTypes | ios/Pods/Stripe/Stripe/PaymentSheetLinkAccount.swift:381-399 | removing and then re-inserting the bank account yields exactly the declarative set `DetailsTypesFor`: a card iff the session supports it; a bank account iff it is supported with bank onboarding enabled, or in test mode for a multiple-funding-sources address |
| LinkAccount.PaymentSheetLinkAccount.SupportedPaymentMethodTypes | ios/Pods/Stripe/Stripe/PaymentSheetLinkAccount.swift:401-414 | one distinct entry per usable details type (card becomes card, bank account becomes instant debit), in any iteration order |
| FinancialConnectionsHost.Notify | ios/Pods/StripeFinancialConnections/StripeFinancialConnections/StripeFinancialConnections/Source/Host/FinanciaConnectionsHostViewController.swift:152-156 | sets the latch and changes nothing but the latch and the delivered results; at most the current result is delivered, only when the latch was not set, and never to an absent delegate |
| FinancialConnectionsHost.AfterManifestFetch | ios/Pods/StripeFinancialConnections/StripeFinancialConnections/StripeFinancialConnections/Source/Host/FinanciaConnectionsHostViewController.swift:132-150 | after the manifest callback the error view is shown exactly when the result is a failure; a failed fetch keeps the state and delivers nothing; a fetched manifest leaves noManifest; the delegate is untouched |
| FinancialConnectionsHost.AfterAuthSession | ios/Pods/StripeFinancialConnections/StripeFinancialConnections/StripeFinancialConnections/Source/Host/FinanciaConnectionsHostViewController.swift:158-180 | only success moves the state (to authSessionComplete); a failure result is always shown; every outcome but success sets the latch; at most the new result is delivered |
| FinancialConnectionsHost.AfterSessionFetch | ios/Pods/StripeFinancialConnections/StripeFinancialConnections/StripeFinancialConnections/Source/Host/FinanciaConnectionsHostViewController.swift:182-198 | keeps the flow state; the result is the completed session or the failure; at most that result is delivered |
| FinancialConnectionsHost.AfterTryAgain | ios/Pods/StripeFinancialConnections/StripeFinancialConnections/StripeFinancialConnections/Source/Host/FinanciaConnectionsHostViewController.swift:232-243 | never moves the state backwards; is a no-op in manifestFetched; in noManifest it is the manifest fetch run again (and the error view is shown exactly on a failure result); in authSessionComplete it is the session fetch run again |
| FinancialConnectionsHost.NotifyOnce | ios/Pods/StripeFinancialConnections/StripeFinancialConnections/StripeFinancialConnections/Source/Host/FinanciaConnectionsHostViewController.swift:152-156 | notifying hands an attached delegate the current result and sets the latch; an absent delegate only has the latch set; once the latch is set it is a no-op, and notifying twice equals notifying once |
| FinancialConnectionsHost.ManifestFetchOutcome | ios/Pods/StripeFinancialConnections/StripeFinancialConnections/StripeFinancialConnections/Source/Host/FinanciaConnectionsHostViewController.swift:132-150 | a failed manifest fetch records and shows the failure, stays in noManifest and does not notify; a fetched manifest leaves noManifest |
| FinancialConnectionsHost.AuthSessionOutcome | ios/Pods/StripeFinancialConnections/StripeFinancialConnections/StripeFinancialConnections/Source/Host/FinanciaConnectionsHostViewController.swift:158-180 | what each outcome does, as the delegate sees it: <br>• success: the state becomes authSessionComplete and the result is the session-fetch outcome; after a failed fetch nothing is notified; <br>• web or native cancel: the result becomes canceled, the latch is set, and a not-yet-notified attached delegate receives exactly canceled; <br>• failure: the failure is the result and is shown, the latch is set, and a not-yet-notified attached delegate receives exactly that failure; <br>an already-notified or absent delegate receives nothing |
| FinancialConnectionsHost.SessionFetchOutcome | ios/Pods/StripeFinancialConnections/StripeFinancialConnections/StripeFinancialConnections/Source/Host/FinanciaConnectionsHostViewController.swift:182-198 | a failed fetch records and shows the failure and changes neither the state, the latch nor the deliveries; a fetched session becomes the completed result, sets the latch, and a not-yet-notified attached delegate receives exactly it |
| FinancialConnectionsHost.LoadOutcome | ios/Pods/StripeFinancialConnections/StripeFinancialConnections/StripeFinancialConnections/Source/Host/FinanciaConnectionsHostViewController.swift:132-198 | for every combination of replies, what loading hands an attached delegate: <br>• nothing after a failed manifest or session fetch; <br>• otherwise exactly the completed, canceled or failed result; <br>the error view is shown exactly when the result is a failure |
| FinancialConnectionsHost.TryAgainAfterAuthFailureIsNoOp | ios/Pods/StripeFinancialConnections/StripeFinancialConnections/StripeFinancialConnections/Source/Host/FinanciaConnectionsHostViewController.swift:232-243 | after an auth-session failure the error view is shown in state manifestFetched, and "Try again" there changes nothing |
| FinancialConnectionsHost.TryAgainOutcome | ios/Pods/StripeFinancialConnections/StripeFinancialConnections/StripeFinancialConnections/Source/Host/FinanciaConnectionsHostViewController.swift:232-243 | "Try again" before a manifest: a failed fetch records and shows the failure and changes nothing else; a fetched manifest hides the view and runs the authentication session and session fetch. After the authentication session: a failed fetch records and shows the failure and changes nothing else; a fetched session becomes the completed result, sets the latch and reaches a not-yet-notified attached delegate exactly once |
| FinancialConnectionsHost.ApplyKeepsInvariant | ios/Pods/StripeFinancialConnections/StripeFinancialConnections/StripeFinancialConnections/Source/Host/FinanciaConnectionsHostViewController.swift:232-248 | "Try again", close, dismissal and delegate changes keep at-most-once delivery, never move the state backwards, and deliver nothing new after notification |
| FinancialConnectionsHost.RunKeepsInvariant | ios/Pods/StripeFinancialConnections/StripeFinancialConnections/StripeFinancialConnections/Source/Host/FinanciaConnectionsHostViewController.swift:232-248 | the same three facts for any sequence of user events |
| FinancialConnectionsHost.WholeFlowDeliversAtMostOnce | ios/Pods/StripeFinancialConnections/StripeFinancialConnections/StripeFinancialConnections/Source/Host/FinanciaConnectionsHostViewController.swift:106-248 | loading followed by any user events hands the delegate at most one result, and only once the latch is set |
| FinancialConnectionsHost.StepKeepsConsistent | ios/Pods/StripeFinancialConnections/StripeFinancialConnections/StripeFinancialConnections/Source/Host/FinanciaConnectionsHostViewController.swift:132-248 | any reply to a request in flight or any user action keeps every request in flight matched to the state its callback expects, keeps at-most-once delivery, never moves the state backwards, and delivers nothing new after notification |
| FinancialConnectionsHost.AsyncRunKeepsConsistent | ios/Pods/StripeFinancialConnections/StripeFinancialConnections/StripeFinancialConnections/Source/Host/FinanciaConnectionsHostViewController.swift:132-248 | the same facts for any interleaving of replies and user actions |
| FinancialConnectionsHost.AsyncFlowDeliversAtMostOnce | ios/Pods/StripeFinancialConnections/StripeFinancialConnections/StripeFinancialConnections/Source/Host/FinanciaConnectionsHostViewController.swift:106-248 | from `viewDidLoad`, however replies and user actions interleave, the delegate is handed at most one result, and only once the latch is set |
| FinancialConnectionsHost.LoadIsOneInterleaving | ios/Pods/StripeFinancialConnections/StripeFinancialConnections/StripeFinancialConnections/Source/Host/FinanciaConnectionsHostViewController.swift:132-198 | the manifest fetch with its callbacks run at once equals the replies arriving in order with nothing between them |
| FinancialConnectionsHost.TryAgainIsOneInterleaving | ios/Pods/StripeFinancialConnections/StripeFinancialConnections/StripeFinancialConnections/Source/Host/FinanciaConnectionsHostViewController.swift:232-243 | "Try again" on the error view, before a manifest or after the authentication session, equals the tap followed by its replies arriving in order |
| FinancialConnectionsHost.FinancialConnectionsHostViewController.constructor | ios/Pods/StripeFinancialConnections/StripeFinancialConnections/StripeFinancialConnections/Source/Host/FinanciaConnectionsHostViewController.swift:34-36 | starts in noManifest with result canceled, not yet notified, no error view and no delegate |
| FinancialConnectionsHost.FinancialConnectionsHostViewController.SetDelegate | ios/Pods/StripeFinancialConnections/StripeFinancialConnections/StripeFinancialConnections/Source/Host/FinanciaConnectionsHostViewController.swift:31 | only the presence of the weak delegate changes |
| FinancialConnectionsHost.FinancialConnectionsHostViewController.ViewDidLoad | ios/Pods/StripeFinancialConnections/StripeFinancialConnections/StripeFinancialConnections/Source/Host/FinanciaConnectionsHostViewController.swift:106-113 | the new state is the manifest-fetch transition of the old one |
| FinancialConnectionsHost.FinancialConnectionsHostViewController.ViewDidDisappear | ios/Pods/StripeFinancialConnections/StripeFinancialConnections/StripeFinancialConnections/Source/Host/FinanciaConnectionsHostViewController.swift:115-125 | the new state is the notify transition of the old one |
| FinancialConnectionsHost.FinancialConnectionsHostViewController.GetManifest | ios/Pods/StripeFinancialConnections/StripeFinancialConnections/StripeFinancialConnections/Source/Host/FinanciaConnectionsHostViewController.swift:132-150 | hides the error view, then follows the manifest reply (into the auth session on success); keeps at-most-once delivery; the state does not move backwards |
| FinancialConnectionsHost.FinancialConnectionsHostViewController.NotifyDelegate | ios/Pods/StripeFinancialConnections/StripeFinancialConnections/StripeFinancialConnections/Source/Host/FinanciaConnectionsHostViewController.swift:152-156 | delivers the current result to an attached delegate unless the latch is set, then sets it |
| FinancialConnectionsHost.FinancialConnectionsHostViewController.StartAuthenticationSession | ios/Pods/StripeFinancialConnections/StripeFinancialConnections/StripeFinancialConnections/Source/Host/FinanciaConnectionsHostViewController.swift:158-180 | the new state is the auth-session transition of the old one; the state does not move backwards |
| FinancialConnectionsHost.FinancialConnectionsHostViewController.FetchSession | ios/Pods/StripeFinancialConnections/StripeFinancialConnections/StripeFinancialConnections/Source/Host/FinanciaConnectionsHostViewController.swift:182-198 | the new state is the session-fetch transition of the old one; the flow state is unchanged |
| FinancialConnectionsHost.FinancialConnectionsHostViewController.DidTapTryAgainButton | ios/Pods/StripeFinancialConnections/StripeFinancialConnections/StripeFinancialConnections/Source/Host/FinanciaConnectionsHostViewController.swift:232-243 | dispatches on the flow state: <br>• noManifest: fetches the manifest again; <br>• manifestFetched: does nothing; <br>• authSessionComplete: fetches the session again; <br>the state does not move backwards |
| FinancialConnectionsHost.FinancialConnectionsHostViewController.DidTapClose | ios/Pods/StripeFinancialConnections/StripeFinancialConnections/StripeFinancialConnections/Source/Host/FinanciaConnectionsHostViewController.swift:245-248 | the new state is the notify transition of the old one |
| TextField.RemoveCharacters | ios/Pods/StripeUICore/StripeUICore/StripeUICore/Source/Elements/TextField/TextFieldElement.swift:106 | the result holds no disallowed character and keeps every other character with its multiplicity |
| TextField.RemoveCharactersAppend | ios/Pods/StripeUICore/StripeUICore/StripeUICore/Source/Elements/TextField/TextFieldElement.swift:106 | removing characters distributes over concatenation |
| TextField.RemoveCharactersKeepsClean | ios/Pods/StripeUICore/StripeUICore/StripeUICore/Source/Elements/TextField/TextFieldElement.swift:106 | a text without disallowed characters is left unchanged |
| TextField.Sanitize | ios/Pods/StripeUICore/StripeUICore/StripeUICore/Source/Elements/TextField/TextFieldElement.swift:105-108 | the result has no disallowed character, is a prefix of the filtered text and is no longer than the limit for it; it is shorter than the filtered text only when cut exactly at the limit |
| TextField.SanitizeEmpty | ios/Pods/StripeUICore/StripeUICore/StripeUICore/Source/Elements/TextField/TextFieldElement.swift:32-36 | the empty text sanitises to the empty text, so a configuration reset leaves an empty field |
| TextField.SanitizeFixpoint | ios/Pods/StripeUICore/StripeUICore/StripeUICore/Source/Elements/TextField/TextFieldElement.swift:105-108 | sanitising a sanitised text changes nothing exactly when the limit for that text admits its length |
| TextField.Placeholder | ios/Pods/StripeUICore/StripeUICore/StripeUICore/Source/Elements/TextField/TextFieldElement.swift:69-76 | the label itself for a required field; for an optional one, exactly the text before the slot of the "optional" format, then the label, then the text after it |
| TextField.ErrorTextFor | ios/Pods/StripeUICore/StripeUICore/StripeUICore/Source/Elements/TextField/TextFieldElement.swift:122-130 | present exactly when validation is invalid and its error should display for the editing flag; then it is the error's description |
| TextField.TextFieldElement.constructor | ios/Pods/StripeUICore/StripeUICore/StripeUICore/Source/Elements/TextField/TextFieldElement.swift:37-39 | the initial text is the sanitised default value (or empty text), not editing and not optional |
| TextField.TextFieldElement.SetText | ios/Pods/StripeUICore/StripeUICore/StripeUICore/Source/Elements/TextField/TextFieldElement.swift:95-101 | the stored text is exactly the sanitised argument |
| TextField.TextFieldElement.SetConfiguration | ios/Pods/StripeUICore/StripeUICore/StripeUICore/Source/Elements/TextField/TextFieldElement.swift:32-36 | the new configuration is stored and the text becomes empty |
| TextField.TextFieldElement.SetOptional | ios/Pods/StripeUICore/StripeUICore/StripeUICore/Source/Elements/TextField/TextFieldElement.swift:22-27 | the optional flag takes the new value |
| TextField.TextFieldElement.CurrentValidationState | ios/Pods/StripeUICore/StripeUICore/StripeUICore/Source/Elements/TextField/TextFieldElement.swift:41-43 | the configuration's verdict on the current text and optional flag |
| TextField.TextFieldElement.CurrentViewModel | ios/Pods/StripeUICore/StripeUICore/StripeUICore/Source/Elements/TextField/TextFieldElement.swift:68-86 | exactly one of the floating and static placeholders is present, floating iff the configuration says so; it is the label for a required field and the "optional" format of the label otherwise; the accessibility label is the configuration's; the validation state is the configuration's validation of the current text and optional flag |
| TextField.TextFieldElement.ErrorText | ios/Pods/StripeUICore/StripeUICore/StripeUICore/Source/Elements/TextField/TextFieldElement.swift:122-130 | present exactly when the current text is invalid and its error should display for the current editing flag; then it is the error's description |
| TextField.TextFieldElement.TextFieldViewDidUpdate | ios/Pods/StripeUICore/StripeUICore/StripeUICore/Source/Elements/TextField/TextFieldElement.swift:140-156 | the text becomes the sanitised view text; it advances to the next field exactly when the text changed, reached its limit and is valid; the editing flag is copied from the view |
| PhoneNumber.RegionInfoFor | ios/Pods/StripeUICore/StripeUICore/StripeUICore/Source/Elements/PhoneNumber/PhoneNumberElement.swift:128-137 | an entry carries the region's code, its flag, its localized name or else the code, and the flag or else the code as label |
| PhoneNumber.SortedRegionInfo | ios/Pods/StripeUICore/StripeUICore/StripeUICore/Source/Elements/PhoneNumber/PhoneNumberElement.swift:126-143 | one entry per metadata record in order, with its flag, its localized name (or code) and its flag (or code) as label, then exactly one final "Other" entry; only that entry lacks a region code |
| PhoneNumber.FirstIndexOfRegion | ios/Pods/StripeUICore/StripeUICore/StripeUICore/Source/Elements/PhoneNumber/PhoneNumberElement.swift:101 | the first index whose region code equals the wanted optional code, or none when no entry has it |
| PhoneNumber.InitialRegionIndex | ios/Pods/StripeUICore/StripeUICore/StripeUICore/Source/Elements/PhoneNumber/PhoneNumberElement.swift:92-94 | a valid index: the first entry for the default country, or for the locale region without a default country; 0 when nothing matches |
| PhoneNumber.NoCountryNoLocaleSelectsOther | ios/Pods/StripeUICore/StripeUICore/StripeUICore/Source/Elements/PhoneNumber/PhoneNumberElement.swift:92-94 | with neither a default country nor a locale region, the initial index is the last entry, "Other" |
| PhoneNumber.PickerDisplayName | ios/Pods/StripeUICore/StripeUICore/StripeUICore/Source/Elements/PhoneNumber/PhoneNumberElement.swift:148-154 | the name alone without a flag; with one, exactly the flag, one space and the name |
| PhoneNumber.SortedPickerValues | ios/Pods/StripeUICore/StripeUICore/StripeUICore/Source/Elements/PhoneNumber/PhoneNumberElement.swift:145-159 | one item per region with its label and name; with a flag the picker text is the flag, a space and the name (it starts with the flag and a space, ends in the name and is exactly that long); without one it is the name alone |
| PhoneNumber.PhoneNumberTextOf | ios/Pods/StripeUICore/StripeUICore/StripeUICore/Source/Elements/PhoneNumber/PhoneNumberElement.swift:72-84 | with a parsed number: absent exactly when its E.164 text is empty or only the prefix, otherwise that text; without one: the raw text exactly when the field validates |
| PhoneNumber.PhoneNumberTextNeverBare | ios/Pods/StripeUICore/StripeUICore/StripeUICore/Source/Elements/PhoneNumber/PhoneNumberElement.swift:75-79 | a reported parsed number is never empty and never the bare prefix |
| PhoneNumber.PhoneNumberElement.constructor | ios/Pods/StripeUICore/StripeUICore/StripeUICore/Source/Elements/PhoneNumber/PhoneNumberElement.swift:86-107 | which region is selected and what text the number field gets depends on the default value: <br>• none: the initial region index and the number field's own initial text; <br>• an E.164 number of a listed region: that region and its national number as text; <br>• anything else: the initial region and the default value as text; <br>the number field is configured for the selected region |
| PhoneNumber.PhoneNumberElement.SelectRegion | ios/Pods/StripeUICore/StripeUICore/StripeUICore/Source/Elements/PhoneNumber/PhoneNumberElement.swift:57-61 | the chosen region is selected, the prefix label follows it, the number field is reconfigured for it and its text cleared; the number field's optional and editing flags are unchanged |
| PhoneNumber.PhoneNumberElement.UpdateUI | ios/Pods/StripeUICore/StripeUICore/StripeUICore/Source/Elements/PhoneNumber/PhoneNumberElement.swift:161-166 | the prefix label shows the selected prefix and the number field gets the selected region's configuration, which empties it; its optional and editing flags are unchanged |
| PhoneNumber.PhoneNumberElement.ResetNumber | ios/Pods/StripeUICore/StripeUICore/StripeUICore/Source/Elements/PhoneNumber/PhoneNumberElement.swift:67-69 | the number text becomes empty; the configuration and the optional and editing flags are unchanged |
| PhoneNumber.PhoneNumberElement.PhoneNumberText | ios/Pods/StripeUICore/StripeUICore/StripeUICore/Source/Elements/PhoneNumber/PhoneNumberElement.swift:72-84 | for the library's number built from the current text and region: absent exactly when its E.164 text is empty or only the prefix, else that text; with no number built, the raw text exactly when the field validates |
| FormSpec.RawValue | ios/Pods/Stripe/Stripe/FormSpec.swift:120-128 | every raw key lies under the `upe.labels.` namespace |
| FormSpec.FromRawValue | ios/Pods/Stripe/Stripe/FormSpec.swift:120-128 | a raw string decodes to a label key only if it is that key's raw value, and to nothing when no key has it |
| FormSpec.RawValueRoundTrip | ios/Pods/Stripe/Stripe/FormSpec.swift:120-128 | every label key decodes back from its raw value |
| FormSpec.LocalizedValue | ios/Pods/Stripe/Stripe/FormSpec.swift:130-148 | only the EPS and Przelewy24 bank labels are localized in place, each with its "Label title for" comment; the other five come from the shared string table |
| FormSpec.TagOf | ios/Pods/Stripe/Stripe/FormSpec.swift:19-39 | every field kind has an accepted tag |
| FormSpec.TagsDistinguishKinds | ios/Pods/Stripe/Stripe/FormSpec.swift:48-76 | fields with the same tag are of the same kind |
| FormSpec.DecodeStringMapIfPresent | ios/Pods/Stripe/Stripe/FormSpec.swift:87 | an optional string dictionary: none exactly when the key is absent or null; it succeeds on an object of strings, and a decoded dictionary is what the key holds; an object holding a null throws value-not-found; any other failure is a type mismatch; never traps |
| FormSpec.DecodeString | ios/Pods/Stripe/Stripe/FormSpec.swift:98 | a required string: succeeds exactly when the key holds a string, and returns it; a missing key throws key-not-found, a null throws value-not-found; never traps |
| FormSpec.DecodeStringIfPresent | ios/Pods/Stripe/Stripe/FormSpec.swift:100 | an optional string: none exactly when the key is absent or null; a string held under the key decodes to exactly that string; anything else is a type mismatch |
| FormSpec.DecodeBoolIfPresent | ios/Pods/Stripe/Stripe/FormSpec.swift:16 | an optional boolean: none exactly when the key is absent or null; a boolean held under the key decodes to exactly that boolean; anything else is a type mismatch |
| FormSpec.DecodeLocalizedString | ios/Pods/Stripe/Stripe/FormSpec.swift:103 | a required label key: succeeds exactly when the key holds a string that is one of the raw values, giving the key with that raw value; a missing key, a null or a non-string throws as a required string does; a string that is no raw value throws data-corrupted; never traps |
| FormSpec.DecodeLocalizedStringIfPresent | ios/Pods/Stripe/Stripe/FormSpec.swift:93 | an optional label key: none exactly when absent or null; a raw value held under the key decodes to its label key; an unknown raw value throws data-corrupted, a non-string type-mismatch; never traps |
| FormSpec.DecodeStrings | ios/Pods/Stripe/Stripe/FormSpec.swift:115 | succeeds exactly when every element is a string, giving one string per element in order; otherwise the first non-string element decides: value-not-found for a null, type-mismatch for anything else |
| FormSpec.DecodeArrayAt | ios/Pods/Stripe/Stripe/FormSpec.swift:17 | an array under a key: a missing key throws key-not-found, a null value-not-found, a value that is no array type-mismatch; an array is decoded by the element-list decoder |
| FormSpec.DecodeList | ios/Pods/Stripe/Stripe/FormSpec.swift:17 | an array decoded element by element succeeds exactly when every element does, giving one value per element in order; otherwise the first failing element decides the outcome, with the same error or trap |
| FormSpec.DecodePropertyItem | ios/Pods/Stripe/Stripe/FormSpec.swift:96-101 | a decoded item's display text and optional API value are what the item object holds under `displayText` and `apiValue`; it succeeds exactly when both keys decode; a missing display text throws key-not-found, a null item value-not-found, a non-object item type-mismatch; never traps |
| FormSpec.DecodePropertyItems | ios/Pods/Stripe/Stripe/FormSpec.swift:105 | succeeds exactly when every element decodes as an item, giving one item per element in order; otherwise the first element that fails decides the error; never traps |
| FormSpec.DecodeBaseFieldSpec | ios/Pods/Stripe/Stripe/FormSpec.swift:85-88 | the API path is absent exactly when the key is absent or null, and otherwise is the dictionary the object holds; it fails exactly as the `apiPath` key fails; never traps |
| FormSpec.DecodeNameFieldSpec | ios/Pods/Stripe/Stripe/FormSpec.swift:89-94 | the API path and the label are each absent exactly when their key is absent or null, and otherwise are what the object holds; it fails as `apiPath` fails, else as `label` fails; never traps |
| FormSpec.DecodeSelectorSpec | ios/Pods/Stripe/Stripe/FormSpec.swift:95-109 | the label is the key whose raw value the object holds; one item per element of `items`, in order; the API path is absent exactly when absent or null, and otherwise is the dictionary the object holds; it fails as `label` fails, else as `items` fails, else as `apiPath` fails; a missing label throws key-not-found; never traps |
| FormSpec.DecodeSofortBillingAddress | ios/Pods/Stripe/Stripe/FormSpec.swift:111-116 | the API path is absent exactly when absent or null, and otherwise is the dictionary the object holds; one country code per string of `validCountryCodes`, in order; it fails as `apiPath` fails, else as `validCountryCodes` fails; never traps |
| FormSpec.DecodeTaggedField | ios/Pods/Stripe/Stripe/FormSpec.swift:48-79 | a decoded field carries the tag it was decoded for and the payload its payload decoder reads from the same object; the six payload-free tags always succeed; for the others a payload error is thrown unchanged; it traps exactly on a tag outside the 14 |
| FormSpec.DecodeFieldSpec | ios/Pods/Stripe/Stripe/FormSpec.swift:44-80 | a decoded field's object has its tag under `"type"` and its payload read from the same object; a null throws value-not-found, a non-object type-mismatch, a bad `"type"` its own error; with a string tag the result is the tagged decoding; it traps exactly when `"type"` is a string that is not a known tag |
| FormSpec.DecodeFieldSpecs | ios/Pods/Stripe/Stripe/FormSpec.swift:17 | succeeds exactly when every element decodes as a field, giving each element's own decoding in order; otherwise the first element that fails decides the outcome, a trap included |
| FormSpec.DecodeFormSpec | ios/Pods/Stripe/Stripe/FormSpec.swift:14-17 | a decoded form spec has the `"type"` string and optional `"async"` flag the object holds, and one field per element of `"fields"`, in order; a null throws value-not-found, a non-object type-mismatch; otherwise it fails as `"type"` fails, else as `"async"` fails, else as `"fields"` fails: key-not-found if missing, value-not-found if null, type-mismatch if no array, and otherwise the first failing field's error or trap |
| FormSpec.StringsRoundTrip | ios/Pods/Stripe/Stripe/FormSpec.swift:115 | decoding encoded country codes gives them back |
| FormSpec.PropertyItemsRoundTrip | ios/Pods/Stripe/Stripe/FormSpec.swift:96-105 | decoding encoded selector items gives them back |
| FormSpec.DecodeEncodeFieldSpec | ios/Pods/Stripe/Stripe/FormSpec.swift:44-116 | every field spec, of each of the 14 kinds, decodes back from its encoding |
| FormSpec.FieldSpecsRoundTrip | ios/Pods/Stripe/Stripe/FormSpec.swift:17 | a list of field specs decodes back from its encoding, in order |
| FormSpec.DecodeEncodeFormSpec | ios/Pods/Stripe/Stripe/FormSpec.swift:14-17 | every form spec decodes back from its encoding |
| FormSpec.UnknownTagIsFatal | ios/Pods/Stripe/Stripe/FormSpec.swift:77-78 | an object whose `"type"` is not one of the 14 tags traps and yields no value |
| FormSpec.UnknownFieldTrapsForm | ios/Pods/Stripe/Stripe/FormSpec.swift:14-17 | a field of unknown kind in `"fields"`, after fields that all decode, traps the whole form whatever follows it |
| FormSpec.FieldSpecIgnoresOtherKeys | ios/Pods/Stripe/Stripe/FormSpec.swift:41-116 | a field decodes from `"type"` and its payload keys alone: two objects that agree on those keys decode alike, whatever else they hold |
| FormSpec.FormSpecIgnoresOtherKeys | ios/Pods/Stripe/Stripe/FormSpec.swift:14-17 | a form decodes from `"type"`, `"async"` and `"fields"` alone |

## Notes on the source

- The `FieldSpec` enum and its decoder have 14 cases and 14 tag strings. The model has
  exactly those.
- `signUp` never calls its completion when the service replies with neither a response
  nor an error. The model returns `NotCalled` there.
- `startVerification` and `verify` assign the reply's session even when it is absent
  without an error, so such a reply signs the account out. The model keeps this.
- The second guard of `startVerification` cannot fail: requiring verification implies
  a session. The model has no branch for it.
- After an authentication-session failure the host shows its error view with
  "Try again", but in that state the button is a deliberate no-op
  (`FinancialConnectionsHost.TryAgainAfterAuthFailureIsNoOp`).
- When "Try again" fetches the manifest again, the error view is hidden while the earlier
  failure is still the result. So "a failure is always on screen" is not an invariant
  of the host, and the model does not claim it.

## Left out

- The Link service, the Financial Connections API, the authentication session manager
  and the session fetcher: their replies are parameters.
  - `DispatchQueue.main.async` deferral is not modelled; the completion value is
    returned directly.
  - The `[weak self]` early returns of a deallocated host are not modelled.
  - The host controller's methods run each callback as soon as its request starts, so
    the class alone does not capture replies that arrive after a close, a dismissal or
    another "Try again". The pure `FinancialConnectionsHost.Flow` model lets replies and
    user actions interleave in any order, and its lemmas cover those runs.
- `assertionFailure`: only the release-build behaviour (the failure branch) is modelled.
- `LinkAccount.Lowercase`: lower-cases ASCII letters only. Swift's `lowercased()` applies
  full Unicode case mapping.
- `sha256` is a parameter.
- `LinkAccount.CookieStore`: a plain map. The keychain-backed store and its actual key
  strings are not part of this model.
- The keys are constructor parameters.
- `LinkAccount.PaymentSheetLinkAccount.MakePaymentMethodParams` models only the Link
  part of the params. It assumes that part exists on params of type `link`.
- The `signUp(with: PhoneNumber, …)` overload is not modelled. It only formats the number
  as E.164 before calling the modelled `signUp`.
- The other operations of the Link account are not modelled: creating a link account
  session, creating, listing, deleting and updating payment details. Each is a guard on
  the session followed by a service call.
- UI work is not modelled: views, constraints, the activity indicator, colours, fonts,
  keyboards, attributed text, logos, sub-labels and delegate `didUpdate` calls.
  - The host's error view is kept as one boolean.
  - iOS 13 availability is assumed for swipe-to-dismiss notification.
- `TextField.RemoveCharacters`: counts Swift `Character`s as single `char`s. Grapheme
  clusters, which `count` and `prefix` use, are not modelled.
- The `stp_stringByRemovingCharacters` helper is modelled by its evident meaning.
- A field configuration's `maxLength`, `validate`, labels and disallowed characters are
  inputs. The localized "optional" format is a template with one slot.
- Locale sorting, localized region names, flag emoji and the E.164 library are inputs:
  - the metadata arrives already sorted;
  - names and flags are functions;
  - parsing and formatting are functions returning optional values.
- Lazy properties (`text`, `numberElement`, `sortedRegionInfo`) are computed at
  construction. Every later change to their inputs goes through an observer that
  overwrites them, so the observable values are the same.
- `FormSpec`: the JSON wire syntax and the decoder's key strategy are not modelled.
  Decoding starts from a parsed JSON value.
  - An error carries only the coding key it arose at, not Swift's full coding path or
    debug description.
- `FormSpec.DecodeStringMapIfPresent`: when an `apiPath` object holds both a null and a
  value of another non-string type, Swift reports whichever it meets first in dictionary
  order. The model always reports value-not-found there.
  - `localizedValue` yields the localization key or the inline English text with its
    comment. The translated text is not part of this model.
- The repository's server trigger that provisions a billing customer is not modelled. It
  consists only of database and network calls and a catch-all error log.
