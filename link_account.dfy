/**
 * A Link consumer account as seen by the payment sheet. Its session state is
 * derived from an optional consumer session; sign-up, verification and
 * logout are guarded by that state and replace or clear the session. The
 * account also decides which payment-details types, and so which payment
 * method types, can be used for an intent.
 *
 * Every request to the Link service is answered by a reply given as a
 * parameter; what the operation hands to its completion handler is returned
 * as a `Completion`, which is `NotCalled` where the source never calls it.
 */
module LinkAccount {
  import opened Common

  datatype SessionState = RequiresSignUp | RequiresVerification | Verified

  datatype VerificationType = Sms | OtherVerificationType(name: string)
  datatype VerificationState = Started | OtherVerificationState(name: string)
  datatype VerificationSession = VerificationSession(kind: VerificationType, state: VerificationState)

  datatype DetailsType = Card | BankAccount

  datatype PaymentMethodType = CardPayment | LinkInstantDebit

  datatype ConsumerSession = ConsumerSession(
    clientSecret: string,
    hasVerifiedSMSSession: bool,
    isVerifiedForSignup: bool,
    verificationSessions: seq<VerificationSession>,
    supportedPaymentDetailsTypes: seq<DetailsType>,
    redactedPhoneNumber: Option<string>)

  datatype Intent = Intent(linkBankOnboardingEnabled: bool, livemode: bool)

  datatype PaymentDetails = PaymentDetails(stripeId: string, cvc: Option<string>)

  /** The Link part of payment method params of type `link`. */
  datatype LinkParams = LinkParams(
    paymentDetailsId: string,
    credentials: map<string, string>,
    additionalAPIParameters: map<string, map<string, string>>)

  /** The API client the account talks through, identified by its publishable key. */
  datatype ApiClient = ApiClient(publishableKey: Option<string>)

  datatype LinkError = Unknown(debugDescription: string) | ServerError(message: string)

  datatype Completion<+T> = NotCalled | Success(value: T) | Failure(error: LinkError)

  datatype SignUpResponse = SignUpResponse(consumerSession: ConsumerSession, publishableKey: string)

  /** A service reply: an optional payload and an optional error. */
  datatype Reply<+T> = Reply(payload: Option<T>, error: Option<string>)

  // ---------------------------------------------------------------------------
  // Derived session properties

  function SessionStateOf(session: Option<ConsumerSession>): (r: SessionState)
    ensures r == RequiresSignUp <==> session.None?
    ensures session.Some? ==>
              (r == Verified <==> session.value.hasVerifiedSMSSession || session.value.isVerifiedForSignup)
  {
    match session
    case None => RequiresSignUp
    case Some(s) =>
      // An account that just signed up needs no SMS verification.
      if s.hasVerifiedSMSSession || s.isVerifiedForSignup then Verified else RequiresVerification
  }

  function IsRegisteredOf(session: Option<ConsumerSession>): (r: bool)
    ensures r <==> SessionStateOf(session) != RequiresSignUp
  {
    session != None
  }

  /** Whether some verification session is an SMS verification in state started. */
  function AnyStartedSms(sessions: seq<VerificationSession>): (r: bool)
    ensures r <==> exists i :: 0 <= i < |sessions| && sessions[i] == VerificationSession(Sms, Started)
  {
    if sessions == [] then false
    else if sessions[0].kind == Sms && sessions[0].state == Started then true
    else
      var r := AnyStartedSms(sessions[1..]);
      assert forall i :: 1 <= i < |sessions| ==> sessions[i] == sessions[1..][i - 1];
      r
  }

  function HasStartedSMSOf(session: Option<ConsumerSession>): bool {
    session.Some? && AnyStartedSms(session.value.verificationSessions)
  }

  // ---------------------------------------------------------------------------
  // Text helpers

  ghost predicate OccursAt(s: string, sub: string, i: int) {
    0 <= i && i + |sub| <= |s| && s[i..i + |sub|] == sub
  }

  /** Substring search. */
  function Contains(s: string, sub: string): (r: bool)
    ensures r <==> exists i :: OccursAt(s, sub, i)
    decreases |s|
  {
    if sub <= s then
      assert OccursAt(s, sub, 0);
      true
    else if s == [] then
      false
    else
      var r := Contains(s[1..], sub);
      assert forall i :: OccursAt(s[1..], sub, i) <==> OccursAt(s, sub, i + 1) by {
        forall i ensures OccursAt(s[1..], sub, i) <==> OccursAt(s, sub, i + 1) {
          if 0 <= i && i + |sub| <= |s[1..]| {
            assert s[1..][i..i + |sub|] == s[i + 1..i + 1 + |sub|];
          }
        }
      }
      assert !OccursAt(s, sub, 0);
      assert forall i :: OccursAt(s, sub, i) ==> i == 0 || OccursAt(s[1..], sub, i - 1);
      r
  }

  const MultipleFundingSourcesMarker := "+multiple_funding_sources@"

  /** In test mode, e-mail addresses with this marker may use several funding sources. */
  function EmailSupportsMultipleFundingSourcesOnTestMode(email: string): (r: bool)
    ensures r <==> exists i :: OccursAt(email, MultipleFundingSourcesMarker, i)
  {
    Contains(email, MultipleFundingSourcesMarker)
  }

  predicate IsUpperAscii(c: char) {
    'A' <= c <= 'Z'
  }

  /** Lower-cases the ASCII letters of `s`; every other character is kept. */
  function Lowercase(s: string): (r: string)
    ensures |r| == |s|
    ensures forall i :: 0 <= i < |r| ==> !IsUpperAscii(r[i])
    ensures forall i :: 0 <= i < |s| && !IsUpperAscii(s[i]) ==> r[i] == s[i]
    ensures forall i :: 0 <= i < |s| && IsUpperAscii(s[i]) ==> r[i] == (s[i] as int - 'A' as int + 'a' as int) as char
  {
    if s == [] then []
    else
      var c := if IsUpperAscii(s[0]) then (s[0] as int - 'A' as int + 'a' as int) as char else s[0];
      [c] + Lowercase(s[1..])
  }

  lemma {:induction false} LowercaseIdempotent(s: string)
    ensures Lowercase(Lowercase(s)) == Lowercase(s)
  {
    var l := Lowercase(s);
    if s != [] {
      LowercaseIdempotent(s[1..]);
      assert l[1..] == Lowercase(s[1..]);
    }
  }

  // ---------------------------------------------------------------------------
  // Payment method availability

  /** Whether one details type is usable: a card when the session supports
      cards; a bank account when the session supports it and bank onboarding
      is enabled, or in test mode for a multiple-funding-sources address. */
  predicate Usable(t: DetailsType, session: ConsumerSession, intent: Intent, email: string) {
    match t
    case Card => Card in session.supportedPaymentDetailsTypes
    case BankAccount =>
      (BankAccount in session.supportedPaymentDetailsTypes && intent.linkBankOnboardingEnabled)
      || (!intent.livemode && EmailSupportsMultipleFundingSourcesOnTestMode(email))
  }

  /** The details types usable for `intent`: none without a session. */
  function DetailsTypesFor(session: Option<ConsumerSession>, intent: Intent, email: string): (r: set<DetailsType>)
    ensures Card in r <==> session.Some? && Card in session.value.supportedPaymentDetailsTypes
    ensures BankAccount in r <==>
              session.Some?
              && ((BankAccount in session.value.supportedPaymentDetailsTypes && intent.linkBankOnboardingEnabled)
                  || (!intent.livemode && EmailSupportsMultipleFundingSourcesOnTestMode(email)))
  {
    if session.None? then {}
    else set t: DetailsType | t in {Card, BankAccount} && Usable(t, session.value, intent, email)
  }

  /** The result only ever adds a bank account to what the session supports,
      and the test-mode rule wins over disabled bank onboarding. */
  lemma DetailsTypesBounds(session: Option<ConsumerSession>, intent: Intent, email: string)
    ensures session.None? ==> DetailsTypesFor(session, intent, email) == {}
    ensures session.Some? ==>
              DetailsTypesFor(session, intent, email)
                <= (set t | t in session.value.supportedPaymentDetailsTypes) + {BankAccount}
    ensures session.Some? && !intent.livemode && EmailSupportsMultipleFundingSourcesOnTestMode(email) ==>
              BankAccount in DetailsTypesFor(session, intent, email)
    ensures session.Some? && !intent.linkBankOnboardingEnabled
              && (intent.livemode || !EmailSupportsMultipleFundingSourcesOnTestMode(email)) ==>
              BankAccount !in DetailsTypesFor(session, intent, email)
  {
  }

  /** A card is paid as a card, a bank account by Link instant debit. */
  function MethodTypeOf(t: DetailsType): (r: PaymentMethodType)
    ensures r == CardPayment <==> t == Card
    ensures r == LinkInstantDebit <==> t == BankAccount
  {
    match t
    case Card => CardPayment
    case BankAccount => LinkInstantDebit
  }

  ghost function MethodTypesOf(types: set<DetailsType>): set<PaymentMethodType> {
    set t | t in types :: MethodTypeOf(t)
  }

  lemma MethodTypeOfInjective(a: DetailsType, b: DetailsType)
    ensures MethodTypeOf(a) == MethodTypeOf(b) ==> a == b
  {
  }

  // ---------------------------------------------------------------------------
  // Cookies

  class CookieStore {
    var entries: map<string, string>
    const sessionCookieKey: string
    const emailCookieKey: string

    constructor (sessionCookieKey: string, emailCookieKey: string)
      ensures entries == map[]
      ensures this.sessionCookieKey == sessionCookieKey && this.emailCookieKey == emailCookieKey
    {
      entries := map[];
      this.sessionCookieKey := sessionCookieKey;
      this.emailCookieKey := emailCookieKey;
    }

    method Write(key: string, value: string)
      modifies this
      ensures entries == old(entries)[key := value]
    {
      entries := entries[key := value];
    }

    method Delete(key: string)
      modifies this
      ensures entries == old(entries) - {key}
    {
      entries := entries - {key};
    }
  }

  // ---------------------------------------------------------------------------
  // The account

  class PaymentSheetLinkAccount {
    const email: string
    /** Publishable key of the consumer account. */
    const publishableKey: Option<string>
    const cookieStore: CookieStore
    var apiClient: ApiClient
    var currentSession: Option<ConsumerSession>

    constructor (email: string, session: Option<ConsumerSession>, publishableKey: Option<string>,
                 apiClient: ApiClient, cookieStore: CookieStore)
      ensures this.email == email && currentSession == session && this.publishableKey == publishableKey
      ensures this.apiClient == apiClient && this.cookieStore == cookieStore
    {
      this.email := email;
      currentSession := session;
      this.publishableKey := publishableKey;
      this.apiClient := apiClient;
      this.cookieStore := cookieStore;
    }

    function SessionState(): (r: SessionState)
      reads this
      ensures r == RequiresSignUp <==> currentSession.None?
      ensures currentSession.Some? ==>
                (r == Verified <==> currentSession.value.hasVerifiedSMSSession || currentSession.value.isVerifiedForSignup)
    {
      SessionStateOf(currentSession)
    }

    function IsRegistered(): (r: bool)
      reads this
      ensures r <==> currentSession.Some?
      ensures r <==> SessionState() != RequiresSignUp
    {
      IsRegisteredOf(currentSession)
    }

    function HasStartedSMSVerification(): (r: bool)
      reads this
      ensures r <==>
                currentSession.Some?
                && exists i :: 0 <= i < |currentSession.value.verificationSessions|
                               && currentSession.value.verificationSessions[i] == VerificationSession(Sms, Started)
    {
      HasStartedSMSOf(currentSession)
    }

    /** Signs the e-mail up. Only an account that requires sign-up may do so;
        on a response the account takes the new session and an API client for
        the consumer's publishable key. A reply with neither a response nor an
        error never calls the completion. */
    method SignUp(reply: Reply<SignUpResponse>) returns (completion: Completion<()>)
      modifies this
      ensures old(SessionState()) != RequiresSignUp ==>
                completion == Failure(Unknown("Don't call sign up if not needed"))
                && currentSession == old(currentSession) && apiClient == old(apiClient)
      ensures old(SessionState()) == RequiresSignUp && reply.error.Some? ==>
                completion == Failure(ServerError(reply.error.value))
                && currentSession == old(currentSession) && apiClient == old(apiClient)
      ensures old(SessionState()) == RequiresSignUp && reply.error.None? && reply.payload.Some? ==>
                completion == Success(())
                && currentSession == Some(reply.payload.value.consumerSession)
                && apiClient == ApiClient(Some(reply.payload.value.publishableKey))
                && SessionState() != RequiresSignUp
      ensures old(SessionState()) == RequiresSignUp && reply.error.None? && reply.payload.None? ==>
                completion == NotCalled && currentSession == old(currentSession) && apiClient == old(apiClient)
    {
      if SessionState() != RequiresSignUp {
        return Failure(Unknown("Don't call sign up if not needed"));
      }
      if reply.error.Some? {
        return Failure(ServerError(reply.error.value));
      }
      completion := NotCalled;
      if reply.payload.Some? {
        currentSession := Some(reply.payload.value.consumerSession);
        apiClient := ApiClient(Some(reply.payload.value.publishableKey));
        completion := Success(());
      }
    }

    /** Starts SMS verification. Outside `RequiresVerification` it reports
        `false` and changes nothing; otherwise the reply's session (which may
        be absent) replaces the current one and the completion reports whether
        SMS verification has started. */
    method StartVerification(reply: Reply<ConsumerSession>) returns (completion: Completion<bool>)
      modifies this
      ensures apiClient == old(apiClient)
      ensures old(SessionState()) != RequiresVerification ==>
                completion == Success(false) && currentSession == old(currentSession)
      ensures old(SessionState()) == RequiresVerification && reply.error.Some? ==>
                completion == Failure(ServerError(reply.error.value)) && currentSession == old(currentSession)
      ensures old(SessionState()) == RequiresVerification && reply.error.None? ==>
                currentSession == reply.payload && completion == Success(HasStartedSMSVerification())
    {
      if SessionState() != RequiresVerification {
        return Success(false);
      }
      if reply.error.Some? {
        return Failure(ServerError(reply.error.value));
      }
      currentSession := reply.payload;
      completion := Success(HasStartedSMSVerification());
    }

    /** Confirms the one-time passcode. Allowed only while verification is
        required and an SMS verification has started; the reply's session
        (which may be absent) then replaces the current one. */
    method Verify(oneTimePasscode: string, reply: Reply<ConsumerSession>) returns (completion: Completion<()>)
      modifies this
      ensures apiClient == old(apiClient)
      ensures !(old(SessionState()) == RequiresVerification && old(HasStartedSMSVerification())) ==>
                completion == Failure(Unknown("Don't call verify if not needed"))
                && currentSession == old(currentSession)
      ensures old(SessionState()) == RequiresVerification && old(HasStartedSMSVerification()) ==>
                if reply.error.Some?
                then completion == Failure(ServerError(reply.error.value)) && currentSession == old(currentSession)
                else completion == Success(()) && currentSession == reply.payload
    {
      if !(SessionState() == RequiresVerification && HasStartedSMSVerification()) {
        return Failure(Unknown("Don't call verify if not needed"));
      }
      if reply.error.Some? {
        return Failure(ServerError(reply.error.value));
      }
      currentSession := reply.payload;
      completion := Success(());
    }

    /** Records in the e-mail cookie that this e-mail logged out, when its
        lower-cased form can be hashed. */
    method MarkEmailAsLoggedOut(sha256: string -> Option<string>)
      modifies cookieStore
      ensures sha256(Lowercase(email)).None? ==> cookieStore.entries == old(cookieStore.entries)
      ensures sha256(Lowercase(email)).Some? ==>
                cookieStore.entries == old(cookieStore.entries)[cookieStore.emailCookieKey := sha256(Lowercase(email)).value]
    {
      var hashedEmail := sha256(Lowercase(email));
      if hashedEmail.None? {
        return;
      }
      cookieStore.Write(cookieStore.emailCookieKey, hashedEmail.value);
    }

    /** Logs out. Without a session only the completion runs. With one, the
        logout request is sent (its completion runs when the reply arrives),
        the session cookie is deleted, the e-mail is marked as logged out and
        the session is forgotten. */
    method Logout(replyArrives: bool, sha256: string -> Option<string>) returns (completionCalled: bool)
      modifies this, cookieStore
      ensures apiClient == old(apiClient)
      ensures old(currentSession).None? ==>
                completionCalled && currentSession == None && cookieStore.entries == old(cookieStore.entries)
      ensures old(currentSession).Some? ==>
                completionCalled == replyArrives
                && currentSession == None && SessionState() == RequiresSignUp
                && var cleared := old(cookieStore.entries) - {cookieStore.sessionCookieKey};
                   cookieStore.entries ==
                     match sha256(Lowercase(email))
                     case None => cleared
                     case Some(h) => cleared[cookieStore.emailCookieKey := h]
    {
      if currentSession.None? {
        return true;
      }
      completionCalled := replyArrives;
      cookieStore.Delete(cookieStore.sessionCookieKey);
      MarkEmailAsLoggedOut(sha256);
      currentSession := None;
    }

    /** Payment method params for paying with `details` through Link: none
        without a session; otherwise the details id, the session's client
        secret as credential and, when the details carry a CVC, that CVC as a
        card parameter. */
    function MakePaymentMethodParams(details: PaymentDetails): (r: Option<LinkParams>)
      reads this
      ensures r.None? <==> currentSession.None?
      ensures r.Some? ==>
                r.value.paymentDetailsId == details.stripeId
                && r.value.credentials == map["consumer_session_client_secret" := currentSession.value.clientSecret]
                && ("card" in r.value.additionalAPIParameters <==> details.cvc.Some?)
                && r.value.additionalAPIParameters.Keys <= {"card"}
                && (details.cvc.Some? ==> r.value.additionalAPIParameters["card"] == map["cvc" := details.cvc.value])
    {
      match currentSession
      case None => None
      case Some(session) =>
        var credentials := map["consumer_session_client_secret" := session.clientSecret];
        var additional: map<string, map<string, string>> :=
          match details.cvc
          case Some(cvc) => map["card" := map["cvc" := cvc]]
          case None => map[];
        Some(LinkParams(details.stripeId, credentials, additional))
    }

    /** The details types usable for `intent`: start from the session's types,
        drop the bank account when bank onboarding is disabled, then add it
        back in test mode for a multiple-funding-sources address. */
    method SupportedPaymentDetailsTypes(intent: Intent) returns (types: set<DetailsType>)
      ensures types == DetailsTypesFor(currentSession, intent, email)
    {
      if currentSession.None? {
        return {};
      }
      var session := currentSession.value;
      types := set t | t in session.supportedPaymentDetailsTypes;
      if !intent.linkBankOnboardingEnabled {
        types := types - {BankAccount};
      }
      if !intent.livemode && EmailSupportsMultipleFundingSourcesOnTestMode(email) {
        types := types + {BankAccount};
      }
      forall t: DetailsType
        ensures t in types <==> t in DetailsTypesFor(currentSession, intent, email)
      {
        match t {
          case Card =>
          case BankAccount =>
        }
      }
    }

    /** One payment method type per usable details type, in the set's
        (unspecified) iteration order. */
    method SupportedPaymentMethodTypes(intent: Intent) returns (methods: seq<PaymentMethodType>)
      ensures forall i, j :: 0 <= i < j < |methods| ==> methods[i] != methods[j]
      ensures forall m :: m in methods <==> m in MethodTypesOf(DetailsTypesFor(currentSession, intent, email))
      ensures |methods| == |DetailsTypesFor(currentSession, intent, email)|
    {
      var types := SupportedPaymentDetailsTypes(intent);
      methods := [];
      var remaining := types;
      while remaining != {}
        invariant remaining <= types
        invariant |methods| + |remaining| == |types|
        invariant forall i, j :: 0 <= i < j < |methods| ==> methods[i] != methods[j]
        invariant forall m :: m in methods <==> m in MethodTypesOf(types - remaining)
        decreases |remaining|
      {
        var t :| t in remaining;
        forall u | u in types - remaining
          ensures MethodTypeOf(u) != MethodTypeOf(t)
        {
          MethodTypeOfInjective(u, t);
        }
        assert MethodTypeOf(t) !in methods;
        methods := methods + [MethodTypeOf(t)];
        remaining := remaining - {t};
        assert types - remaining == (types - (remaining + {t})) + {t};
      }
      assert types - remaining == types;
    }
  }

  // ---------------------------------------------------------------------------
  // Relations between the derived properties

  /** A registered account has exactly one of the two signed-in states, and
      an SMS verification can only be under way with a session. */
  lemma SessionStateRelations(session: Option<ConsumerSession>)
    ensures IsRegisteredOf(session) <==> session.Some?
    ensures IsRegisteredOf(session) <==>
              SessionStateOf(session) in {RequiresVerification, Verified}
    ensures HasStartedSMSOf(session) ==> IsRegisteredOf(session)
  {
  }
}
