/** XdsTrustManagerFactory: builds the XdsX509TrustManager used for trust and SAN checks,
    from a validation context, from a certificate array, or from a SPIFFE trust map. */
module XdsTrust {
  import opened TrustModel
  import opened Text
  import opened KeyStores

  // ---------------------------------------------------------------------------
  // Aliases of the key-store entries

  /** The alias of the i-th certificate (counting from 1): "alias" + i. It is longer than
      the prefix and has no upper-case letter. */
  function Alias(i: nat): (a: string)
    ensures |a| > 5 && a[..5] == "alias"
    ensures forall k :: 0 <= k < |a| ==> !('A' <= a[k] <= 'Z')
  {
    DecimalDigits(i);
    var a := "alias" + Decimal(i);
    assert forall k :: 5 <= k < |a| ==> a[k] == Decimal(i)[k - 5];
    a
  }

  /** Every alias equals its own lower-cased form, so the store keeps it as it is. */
  lemma AliasIsLowerCase(i: nat)
    ensures IsLowerCase(Alias(i))
  {
    NoUpperIsLowerCase(Alias(i));
  }

  /** Distinct counters give distinct aliases, also after the store folds case. */
  lemma AliasesAreDistinctStoreKeys(i: nat, j: nat)
    requires i != j
    ensures Lower(Alias(i)) != Lower(Alias(j))
  {
    AliasIsLowerCase(i);
    AliasIsLowerCase(j);
    if Alias(i) == Alias(j) {
      assert Decimal(i) == ("alias" + Decimal(i))[5..] && Decimal(j) == ("alias" + Decimal(j))[5..];
      DecimalInjective(i, j);
    }
  }

  /** The store contents after the first |certs| turns of the alias loop. Every key is
      already lower-case, so it is a valid store key as it stands. */
  function AliasMap(certs: seq<Cert>): (m: map<string, Cert>)
    ensures forall a :: a in m ==> IsLowerCase(a)
    decreases |certs|
  {
    if |certs| == 0 then map[]
    else
      AliasIsLowerCase(|certs|);
      AliasMap(certs[..|certs| - 1])[Alias(|certs|) := certs[|certs| - 1]]
  }

  /** The store after n turns holds the aliases of 1 to n and no other. */
  lemma {:induction false} AliasMapKeys(certs: seq<Cert>, a: string)
    ensures a in AliasMap(certs) <==> exists i :: 1 <= i <= |certs| && a == Alias(i)
    decreases |certs|
  {
    if |certs| > 0 {
      var n := |certs|;
      AliasMapKeys(certs[..n - 1], a);
      if a in AliasMap(certs) && a != Alias(n) {
        var i :| 1 <= i <= n - 1 && a == Alias(i);
        assert 1 <= i <= |certs| && a == Alias(i);
      }
    }
  }

  /** The next alias the loop hands out is not yet in the store: nothing is overwritten. */
  lemma AliasMapNextIsFresh(certs: seq<Cert>)
    ensures Alias(|certs| + 1) !in AliasMap(certs)
  {
    AliasMapKeys(certs, Alias(|certs| + 1));
    if Alias(|certs| + 1) in AliasMap(certs) {
      var i :| 1 <= i <= |certs| && Alias(|certs| + 1) == Alias(i);
      AliasesAreDistinctStoreKeys(|certs| + 1, i);
    }
  }

  /** After the loop over n certificates the store holds exactly n entries,
      "alias1" to "alias<n>", the i-th alias naming certs[i-1]. */
  lemma {:induction false} AliasMapContents(certs: seq<Cert>)
    ensures |AliasMap(certs)| == |certs|
    ensures forall i :: 1 <= i <= |certs| ==> Alias(i) in AliasMap(certs) && AliasMap(certs)[Alias(i)] == certs[i - 1]
    decreases |certs|
  {
    if |certs| > 0 {
      var n := |certs|;
      var prefix := certs[..n - 1];
      AliasMapContents(prefix);
      AliasMapNextIsFresh(prefix);
      forall i | 1 <= i < n
        ensures Alias(i) != Alias(n)
      {
        AliasesAreDistinctStoreKeys(n, i);
        AliasIsLowerCase(i);
        AliasIsLowerCase(n);
      }
    }
  }

  /** Because lookup folds case the same way insertion does, a filled store finds
      certs[i-1] under "alias<i>" written in any letter case. */
  lemma LookupFindsEachCertificate(ks: KeyStore, certs: seq<Cert>, i: nat, alias: string)
    requires ks.entries == AliasMap(certs)
    requires 1 <= i <= |certs| && Lower(alias) == Alias(i)
    ensures ks.GetCertificate(alias) == Some(certs[i - 1])
  {
    AliasMapContents(certs);
  }

  // ---------------------------------------------------------------------------
  // Building one delegate: createTrustManager

  /** The index of the first extended trust manager, if any. */
  function FirstExtended(tms: seq<TrustManager>): (r: Option<nat>)
    ensures r.Some? ==> r.value < |tms| && tms[r.value].isExtended
    ensures r.Some? ==> forall j :: 0 <= j < r.value ==> !tms[j].isExtended
    ensures r.None? ==> forall j :: 0 <= j < |tms| ==> !tms[j].isExtended
  {
    if |tms| == 0 then None
    else if tms[0].isExtended then Some(0)
    else match FirstExtended(tms[1..])
      case None => None
      case Some(i) => Some(i + 1)
  }

  /** Whether the try block of createTrustManager completes: every platform step succeeds. */
  predicate SetupSucceeds(p: Platform, certs: seq<Cert>)
  {
    && p.defaultAlgorithmAvailable
    && p.pkcs12Available
    && p.loadFault.None?
    && (forall k :: 0 <= k < |certs| ==> p.storable(certs[k]))
    && p.initSucceeds(AliasMap(certs))
  }

  /** What createTrustManager(certs) produces. */
  function BuildAnchor(p: Platform, certs: seq<Cert>): (r: Result<ExtendedTrustManager, Error>)
    // every failure surfaces as a CertStoreException
    ensures r.Failure? ==> r.error.CertStore?
    // a set-up failure is wrapped, and only a set-up failure
    ensures !SetupSucceeds(p, certs) <==> r.Failure? && r.error.cause.Some?
    // "not found" exactly when the platform gives no array or no extended element
    ensures r == Failure(CertStore(None)) <==>
              SetupSucceeds(p, certs) &&
              (p.trustManagers(AliasMap(certs)).None? ||
               forall j :: 0 <= j < |p.trustManagers(AliasMap(certs)).value| ==> !p.trustManagers(AliasMap(certs)).value[j].isExtended)
    // on success, the first extended element of the platform's array
    ensures r.Success? ==>
              && SetupSucceeds(p, certs)
              && p.trustManagers(AliasMap(certs)).Some?
              && var tms := p.trustManagers(AliasMap(certs)).value;
                 exists i :: 0 <= i < |tms| && tms[i] == r.value && forall j :: 0 <= j < i ==> !tms[j].isExtended
  {
    if !p.defaultAlgorithmAvailable then Failure(CertStore(Some(NoSuchAlgorithm)))
    else if !p.pkcs12Available then Failure(CertStore(Some(KeyStoreFault)))
    else if p.loadFault.Some? then Failure(CertStore(p.loadFault))
    else if exists k :: 0 <= k < |certs| && !p.storable(certs[k]) then Failure(CertStore(Some(KeyStoreFault)))
    else if !p.initSucceeds(AliasMap(certs)) then Failure(CertStore(Some(KeyStoreFault)))
    else match p.trustManagers(AliasMap(certs))
      case None => Failure(CertStore(None))
      case Some(tms) =>
        match FirstExtended(tms)
        case None => Failure(CertStore(None))
        case Some(i) => Success(tms[i])
  }

  /** createTrustManager: fill a fresh store under "alias1", "alias2", ..., initialise the
      platform factory with it, and take the first extended trust manager it offers. */
  method CreateTrustManager(p: Platform, certs: seq<Cert>) returns (r: Result<ExtendedTrustManager, Error>)
    ensures r == BuildAnchor(p, certs)
  {
    if !p.defaultAlgorithmAvailable {
      return Failure(CertStore(Some(NoSuchAlgorithm)));
    }
    if !p.pkcs12Available {
      return Failure(CertStore(Some(KeyStoreFault)));
    }
    var ks := new KeyStore(p.storable);
    if p.loadFault.Some? {
      return Failure(CertStore(p.loadFault));
    }
    ks.Load();
    var stored := StoreCertificates(ks, certs);
    if !stored {
      return Failure(CertStore(Some(KeyStoreFault)));
    }
    if !p.initSucceeds(ks.entries) {
      return Failure(CertStore(Some(KeyStoreFault)));
    }
    var myDelegate := FindExtendedDelegate(p.trustManagers(ks.entries));
    if myDelegate.None? {
      return Failure(CertStore(None));
    }
    return Success(myDelegate.value);
  }

  /** The alias loop of createTrustManager: certs[k] goes in under "alias" + (k + 1).
      `stored` is false when the store rejects a certificate (a KeyStoreException). */
  method StoreCertificates(ks: KeyStore, certs: seq<Cert>) returns (stored: bool)
    requires ks.loaded && ks.Valid() && ks.entries == map[]
    modifies ks`entries
    ensures ks.Valid()
    ensures stored <==> forall k :: 0 <= k < |certs| ==> ks.storable(certs[k])
    ensures stored ==> ks.entries == AliasMap(certs) && |ks.entries| == |certs|
  {
    var i := 1;
    for k := 0 to |certs|
      invariant i == k + 1
      invariant ks.loaded && ks.Valid()
      invariant ks.entries == AliasMap(certs[..k])
      invariant |ks.entries| == k
      invariant forall j :: 0 <= j < k ==> ks.storable(certs[j])
    {
      AliasMapNextIsFresh(certs[..k]);
      AliasIsLowerCase(i);
      var ok := ks.SetCertificateEntry(Alias(i), certs[k]);
      if !ok {
        return false;
      }
      assert certs[..k + 1][..k] == certs[..k];
      i := i + 1;
    }
    assert certs[..|certs|] == certs;
    return true;
  }

  /** The scan at the end of createTrustManager: the first element of the platform's array
      that is an X509ExtendedTrustManager; None when the array is null or has none. */
  method FindExtendedDelegate(tms: Option<seq<TrustManager>>) returns (myDelegate: Option<ExtendedTrustManager>)
    ensures myDelegate.None? <==> tms.None? || forall j :: 0 <= j < |tms.value| ==> !tms.value[j].isExtended
    ensures myDelegate.Some? ==>
              exists i :: 0 <= i < |tms.value| && tms.value[i] == myDelegate.value &&
                forall j :: 0 <= j < i ==> !tms.value[j].isExtended
  {
    myDelegate := None;
    if tms.Some? {
      var all := tms.value;
      var i := 0;
      while i < |all|
        invariant 0 <= i <= |all|
        invariant myDelegate.None? ==> forall j :: 0 <= j < i ==> !all[j].isExtended
        invariant myDelegate.Some? ==> FirstExtended(all) == Some(i)
      {
        if all[i].isExtended {
          myDelegate := Some(all[i]);
          break;
        }
        i := i + 1;
      }
    }
  }

  // ---------------------------------------------------------------------------
  // The two createX509TrustManager overloads

  /** createX509TrustManager(certs, context): one delegate, wrapped with the context. */
  method CreateX509TrustManager(p: Platform, certs: seq<Cert>, context: Option<ValidationContext>)
    returns (r: Result<XdsX509TrustManager, Error>)
    ensures r.Success? <==> BuildAnchor(p, certs).Success?
    ensures r.Success? ==> r.value == Single(context, BuildAnchor(p, certs).value)
    ensures r.Failure? ==> r.error == BuildAnchor(p, certs).error
  {
    var d := CreateTrustManager(p, certs);
    if d.Failure? {
      return Failure(d.error);
    }
    return Success(Single(context, d.value));
  }

  /** The outcomes createX509TrustManager(spiffeTrustMap, context) may have for a non-null
      map. The map's iteration order is unspecified, so when several domains fail, any
      one of their errors may be the one raised. */
  ghost predicate MapOutcome(p: Platform, m: map<string, seq<Cert>>, context: Option<ValidationContext>,
                             r: Result<XdsX509TrustManager, Error>)
  {
    match r
    case Success(x) =>
      && x.Spiffe?
      && x.context == context
      && x.delegates.Keys == m.Keys
      && forall k :: k in m ==> BuildAnchor(p, m[k]) == Success(x.delegates[k])
    case Failure(e) =>
      exists k :: k in m && BuildAnchor(p, m[k]) == Failure(e)
  }

  /** createX509TrustManager(spiffeTrustMap, context): one delegate per trust domain. */
  method CreateX509TrustManagerFromMap(p: Platform, spiffeTrustMap: Option<map<string, seq<Cert>>>,
                                       context: Option<ValidationContext>)
    returns (r: Result<XdsX509TrustManager, Error>)
    ensures spiffeTrustMap.None? ==> r == Failure(NullPointer(NULL_TRUST_MAP))
    ensures spiffeTrustMap.Some? ==> MapOutcome(p, spiffeTrustMap.value, context, r)
  {
    if spiffeTrustMap.None? {
      return Failure(NullPointer(NULL_TRUST_MAP));
    }
    var m := spiffeTrustMap.value;
    var delegates: map<string, ExtendedTrustManager> := map[];
    var remaining := m.Keys;
    while remaining != {}
      invariant remaining <= m.Keys
      invariant delegates.Keys == m.Keys - remaining
      invariant forall k :: k in delegates ==> BuildAnchor(p, m[k]) == Success(delegates[k])
      decreases remaining
    {
      var key :| key in remaining;
      var d := CreateTrustManager(p, m[key]);
      if d.Failure? {
        return Failure(d.error);
      }
      delegates := delegates[key := d.value];
      remaining := remaining - {key};
    }
    return Success(Spiffe(context, delegates));
  }

  /** The map overload fails closed and is determined on success: it succeeds exactly when
      every domain's delegate can be built, and then its result is the only possible one. */
  lemma MapOutcomeDeterminedBySuccess(p: Platform, m: map<string, seq<Cert>>, context: Option<ValidationContext>,
                                      r1: Result<XdsX509TrustManager, Error>, r2: Result<XdsX509TrustManager, Error>)
    requires MapOutcome(p, m, context, r1) && MapOutcome(p, m, context, r2)
    ensures r1.Success? <==> forall k :: k in m ==> BuildAnchor(p, m[k]).Success?
    ensures r1.Success? <==> r2.Success?
    ensures r1.Success? ==> r1 == r2
  {
    if r1.Success? && r2.Success? {
      var d1, d2 := r1.value.delegates, r2.value.delegates;
      assert forall k :: k in d1 ==> d1[k] == d2[k] by {
        forall k | k in d1 ensures d1[k] == d2[k] {
          assert Success(d1[k]) == BuildAnchor(p, m[k]) == Success(d2[k]);
        }
      }
      assert d1 == d2;
    }
  }

  /** Each domain's delegate depends only on that domain's certificate list: two maps
      that agree on a domain give it the same delegate. */
  lemma DelegateDependsOnlyOnOwnDomain(p: Platform, m1: map<string, seq<Cert>>, m2: map<string, seq<Cert>>,
                                       context1: Option<ValidationContext>, context2: Option<ValidationContext>,
                                       x1: XdsX509TrustManager, x2: XdsX509TrustManager, domain: string)
    requires MapOutcome(p, m1, context1, Success(x1)) && MapOutcome(p, m2, context2, Success(x2))
    requires domain in m1 && domain in m2 && m1[domain] == m2[domain]
    ensures domain in x1.delegates && domain in x2.delegates
    ensures x1.delegates[domain] == x2.delegates[domain]
  {
    assert Success(x1.delegates[domain]) == BuildAnchor(p, m1[domain]) == Success(x2.delegates[domain]);
  }

  // ---------------------------------------------------------------------------
  // Trusted-CA dispatch and the static-context check

  /** getTrustedCaFromCertContext: read the certificates named by the context's trusted CA. */
  function TrustedCaFromContext(decoder: Decoder, context: Option<ValidationContext>): (r: Result<seq<Cert>, Error>)
    ensures context.None? ==> r == Failure(NullPointer(""))
    ensures r == Failure(IllegalState(EMPTY_FILE_NAME)) <==> context.Some? && context.value.TrustedCa() == Filename("")
    ensures (r.Failure? && r.error.IllegalArgument?) <==> context.Some? && context.value.TrustedCa().OtherSpecifier?
    ensures r.Failure? && r.error.IllegalArgument? ==>
              r.error.message == "Not supported: " + context.value.TrustedCa().specifierCase
    ensures r.Success? ==> context.Some? && context.value.HasTrustedCa()
    ensures context.Some? && context.value.TrustedCa().Filename? && context.value.TrustedCa().name != "" ==>
              r == decoder.fromFile(context.value.TrustedCa().name)
    ensures context.Some? && context.value.TrustedCa().InlineBytes? ==>
              r == decoder.fromBytes(context.value.TrustedCa().bytes)
  {
    if context.None? then Failure(NullPointer(""))
    else match context.value.TrustedCa()
      case Filename(name) =>
        if name == "" then Failure(IllegalState(EMPTY_FILE_NAME))
        else
          (match decoder.fromFile(name)
           case Success(certs) => Success(certs)
           case Failure(e) => Failure(e))
      case InlineBytes(bytes) =>
        (match decoder.fromBytes(bytes)
         case Success(certs) => Success(certs)
         case Failure(e) => Failure(e))
      case OtherSpecifier(specifierCase) => Failure(IllegalArgument("Not supported: " + specifierCase))
  }

  /** The checkArgument of both private constructors, applied when the context is meant to be static. */
  function StaticCheck(context: Option<ValidationContext>, validationContextIsStatic: bool): (o: Outcome<Error>)
    ensures o.Fail? <==> validationContextIsStatic && context.Some? && context.value.HasTrustedCa()
    ensures o.Fail? ==> o.error == IllegalArgument(ONLY_STATIC_EXPECTED)
  {
    if validationContextIsStatic && !(context.None? || !context.value.HasTrustedCa())
    then Fail(IllegalArgument(ONLY_STATIC_EXPECTED))
    else Pass
  }

  /** Why the context-only constructor passes `false`: whenever it gets certificates from
      the context, that context carries a trusted CA, which the static check would reject. */
  lemma ContextPathWouldFailStaticCheck(decoder: Decoder, context: Option<ValidationContext>)
    requires TrustedCaFromContext(decoder, context).Success?
    ensures StaticCheck(context, true) == Fail(IllegalArgument(ONLY_STATIC_EXPECTED))
    ensures StaticCheck(context, false) == Pass
  {
  }

  // ---------------------------------------------------------------------------
  // The factory

  class XdsTrustManagerFactory {
    /** Null (None) until a constructor assigns it. */
    var xdsX509TrustManager: Option<XdsX509TrustManager>

    constructor (manager: Option<XdsX509TrustManager>)
      ensures xdsX509TrustManager == manager
    {
      xdsX509TrustManager := manager;
    }

    /** Public constructor from a validation context alone: read its trusted CA, then build
        one delegate with the context treated as dynamic. */
    static method FromValidationContext(p: Platform, decoder: Decoder, context: Option<ValidationContext>)
      returns (r: Result<XdsTrustManagerFactory, Error>)
      ensures TrustedCaFromContext(decoder, context).Failure? ==>
                r == Failure(TrustedCaFromContext(decoder, context).error)
      ensures TrustedCaFromContext(decoder, context).Success? ==>
                var certs := TrustedCaFromContext(decoder, context).value;
                && (r.Success? <==> BuildAnchor(p, certs).Success?)
                && (r.Success? ==>
                      fresh(r.value) && r.value.xdsX509TrustManager == Some(Single(context, BuildAnchor(p, certs).value)))
                && (r.Failure? ==> r.error == BuildAnchor(p, certs).error)
    {
      var certs := TrustedCaFromContext(decoder, context);
      if certs.Failure? {
        return Failure(certs.error);
      }
      ContextPathWouldFailStaticCheck(decoder, context);
      r := FromCertificatesWithMode(p, certs.value, context, false);
    }

    /** Public constructor from a certificate array and a static context. */
    static method FromCertificates(p: Platform, certs: seq<Cert>, staticContext: Option<ValidationContext>)
      returns (r: Result<XdsTrustManagerFactory, Error>)
      ensures staticContext.Some? && staticContext.value.HasTrustedCa() ==>
                r == Failure(IllegalArgument(ONLY_STATIC_EXPECTED))
      ensures !(staticContext.Some? && staticContext.value.HasTrustedCa()) ==>
                && (r.Success? <==> BuildAnchor(p, certs).Success?)
                && (r.Success? ==>
                      fresh(r.value) && r.value.xdsX509TrustManager == Some(Single(staticContext, BuildAnchor(p, certs).value)))
                && (r.Failure? ==> r.error == BuildAnchor(p, certs).error)
    {
      r := FromCertificatesWithMode(p, certs, staticContext, true);
    }

    /** Public constructor from a SPIFFE trust map and a static context. A successful
        construction always holds a trust manager. */
    static method FromSpiffeTrustMap(p: Platform, spiffeTrustMap: Option<map<string, seq<Cert>>>,
                                     staticContext: Option<ValidationContext>)
      returns (r: Result<XdsTrustManagerFactory, Error>)
      ensures staticContext.Some? && staticContext.value.HasTrustedCa() ==>
                r == Failure(IllegalArgument(ONLY_STATIC_EXPECTED))
      ensures !(staticContext.Some? && staticContext.value.HasTrustedCa()) && spiffeTrustMap.None? ==>
                r == Failure(NullPointer(NULL_TRUST_MAP))
      ensures r.Success? ==>
                fresh(r.value) && r.value.xdsX509TrustManager.Some? && spiffeTrustMap.Some? &&
                MapOutcome(p, spiffeTrustMap.value, staticContext, Success(r.value.xdsX509TrustManager.value))
      ensures r.Failure? && !(staticContext.Some? && staticContext.value.HasTrustedCa()) && spiffeTrustMap.Some? ==>
                MapOutcome(p, spiffeTrustMap.value, staticContext, Failure(r.error))
    {
      r := FromSpiffeTrustMapWithMode(p, spiffeTrustMap, staticContext, true);
    }

    /** Private constructor (certificates, context, validationContextIsStatic). */
    static method FromCertificatesWithMode(p: Platform, certs: seq<Cert>, context: Option<ValidationContext>,
                                           validationContextIsStatic: bool)
      returns (r: Result<XdsTrustManagerFactory, Error>)
      ensures StaticCheck(context, validationContextIsStatic).Fail? ==>
                r == Failure(StaticCheck(context, validationContextIsStatic).error)
      ensures StaticCheck(context, validationContextIsStatic).Pass? ==>
                && (r.Success? <==> BuildAnchor(p, certs).Success?)
                && (r.Success? ==>
                      fresh(r.value) && r.value.xdsX509TrustManager == Some(Single(context, BuildAnchor(p, certs).value)))
                && (r.Failure? ==> r.error == BuildAnchor(p, certs).error)
    {
      var check := StaticCheck(context, validationContextIsStatic);
      if check.Fail? {
        return Failure(check.error);
      }
      var manager := CreateX509TrustManager(p, certs, context);
      if manager.Failure? {
        return Failure(manager.error);
      }
      var factory := new XdsTrustManagerFactory(Some(manager.value));
      return Success(factory);
    }

    /** Private constructor (SPIFFE map, context, validationContextIsStatic). With `false`
        neither the check nor the build happens, and the trust manager is never assigned. */
    static method FromSpiffeTrustMapWithMode(p: Platform, spiffeTrustMap: Option<map<string, seq<Cert>>>,
                                             context: Option<ValidationContext>, validationContextIsStatic: bool)
      returns (r: Result<XdsTrustManagerFactory, Error>)
      ensures !validationContextIsStatic ==> r.Success? && fresh(r.value) && r.value.xdsX509TrustManager.None?
      ensures StaticCheck(context, validationContextIsStatic).Fail? ==>
                r == Failure(StaticCheck(context, validationContextIsStatic).error)
      ensures validationContextIsStatic && StaticCheck(context, true).Pass? && spiffeTrustMap.None? ==>
                r == Failure(NullPointer(NULL_TRUST_MAP))
      ensures validationContextIsStatic && r.Success? ==>
                fresh(r.value) && r.value.xdsX509TrustManager.Some? && spiffeTrustMap.Some? &&
                MapOutcome(p, spiffeTrustMap.value, context, Success(r.value.xdsX509TrustManager.value))
      ensures validationContextIsStatic && r.Failure? && StaticCheck(context, true).Pass? && spiffeTrustMap.Some? ==>
                MapOutcome(p, spiffeTrustMap.value, context, Failure(r.error))
    {
      if validationContextIsStatic {
        var check := StaticCheck(context, true);
        if check.Fail? {
          return Failure(check.error);
        }
        var manager := CreateX509TrustManagerFromMap(p, spiffeTrustMap, context);
        if manager.Failure? {
          return Failure(manager.error);
        }
        var factory := new XdsTrustManagerFactory(Some(manager.value));
        return Success(factory);
      }
      var factory := new XdsTrustManagerFactory(None);
      return Success(factory);
    }

    /** engineInit(KeyStore): re-initialisation is refused for every store. */
    function EngineInitFromKeyStore(keyStore: KeyStore?): (o: Outcome<Error>)
      ensures o == Fail(UnsupportedOperation)
    {
      Fail(UnsupportedOperation)
    }

    /** engineInit(ManagerFactoryParameters): refused for every parameter object. */
    function EngineInitFromParameters(parameters: ManagerFactoryParameters): (o: Outcome<Error>)
      ensures o == Fail(UnsupportedOperation)
    {
      Fail(UnsupportedOperation)
    }

    /** engineGetTrustManagers: a one-element array holding the (possibly null) trust manager. */
    function EngineGetTrustManagers(): (tms: seq<Option<XdsX509TrustManager>>)
      reads this
      ensures |tms| == 1 && tms[0] == xdsX509TrustManager
    {
      [xdsX509TrustManager]
    }
  }

  /** Opaque javax.net.ssl.ManagerFactoryParameters. */
  datatype ManagerFactoryParameters = ManagerFactoryParameters(description: string)
}
