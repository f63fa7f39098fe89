# XdsTrustManagerFactory, modelled in Dafny

`XdsTrustManagerFactory` (gRPC Java, xDS security) builds the `XdsX509TrustManager` that the
xDS TLS layer uses to check peer certificates. It can be built in three ways:

- from a `CertificateValidationContext` alone, whose trusted CA is read from a file or from inline bytes;
- from a certificate array plus a static context;
- from a SPIFFE trust map (trust domain → certificate list) plus a static context.

For each certificate set it does three things:

1. It fills a fresh PKCS12 key store, putting the k-th certificate under the alias `"alias" + k`.
2. It initialises the platform's default `TrustManagerFactory` with that store.
3. It takes the first `X509ExtendedTrustManager` the platform offers as the delegate.

Every failure of the platform is turned into a `CertStoreException`. Afterwards the factory
refuses both `engineInit` overloads. It hands out exactly one trust manager.

The model has four modules:

- `TrustModel` (`types.dfy`): the data model.
  - Certificates are a record of their encoding and are never inspected.
  - Trust managers carry an `isExtended` tag.
  - The validation context is reduced to its optional trusted-CA `DataSource` and its SAN rules.
  - The Java exceptions become the `Error` datatype.
  - The JCA services become the `Platform` datatype: fault flags plus three functions. `storable` says whether `setCertificateEntry` accepts a given certificate; it depends on the certificate. `initSucceeds` (for `tmf.init`) and `trustManagers` (for `tmf.getTrustManagers()`) are functions of the store's entries.
  - Subset types exclude values no real input has: a specifier case named `OtherSpecifier` is never `FILENAME` or `INLINE_BYTES`, and `load(null, null)` never raises a `KeyStoreException`.
  - Certificate reading becomes the `Decoder` datatype: two functions, one for file names and one for inline bytes.
- `Text` (`text.dfy`): how Java renders the alias counter in decimal, and `toLowerCase(Locale.ENGLISH)` on ASCII letters.
- `KeyStores` (`key_store.dfy`): a `KeyStore` class whose entries are a `map<string, Cert>` keyed by the lower-cased alias, with `Load`, `SetCertificateEntry` and lookup.
- `XdsTrust` (`factory.dfy`): everything in the factory file.
  - The alias scheme and its lemmas.
  - `createTrustManager`, as the method `CreateTrustManager`. It is proved equal to the specification function `BuildAnchor`, whose contract states the error taxonomy and which delegate is chosen.
  - Both `createX509TrustManager` overloads.
  - The trusted-CA dispatch and the static-context check.
  - The factory class.

Java constructors can throw, and Dafny constructors cannot fail. Each of the five Java
constructors is therefore a static method that returns `Result<XdsTrustManagerFactory, Error>`.
On success it allocates the factory through the plain Dafny constructor, which only assigns
the `xdsX509TrustManager` field.

The error kinds are the exceptions the code throws:

| case | exception |
|---|---|
| trusted-CA file name is empty | `IllegalStateException` (`checkState`) |
| null trust map | `NullPointerException` (`checkNotNull`) |
| trusted-CA specifier is not a file name or inline bytes | `IllegalArgumentException` |
| static context carries a trusted CA | `IllegalArgumentException` |

A context without a trusted CA reads as the default `DataSource`, whose specifier case is
`SPECIFIER_NOT_SET`. So the context-only constructor rejects it with `IllegalArgumentException`
("Not supported: SPECIFIER_NOT_SET"). A null context there is a `NullPointerException`.

The private map constructor called with `validationContextIsStatic == false` does two things:

- it skips the check and the build;
- it leaves the trust manager unassigned (null), and it accepts a null map.

No public constructor reaches this path: the only public map constructor (lines 70-73 of the
factory file) passes `true`, and `FromSpiffeTrustMap` proves that a successful construction
always holds a trust manager.

## Model

| member | source | states |
|---|---|---|
| Text.Decimal | xds/src/main/java/io/grpc/xds/internal/security/trust/XdsTrustManagerFactory.java:153 | the rendering of the counter in `"alias" + i` is never empty, and has two or more digits exactly when the counter is 10 or more |
| Text.Lower | xds/src/main/java/io/grpc/xds/internal/security/trust/XdsTrustManagerFactory.java:151 | `toLowerCase(Locale.ENGLISH)` keeps the length and folds each character on its own, upper-case ASCII letters to lower case, everything else unchanged |
| XdsTrust.Alias | xds/src/main/java/io/grpc/xds/internal/security/trust/XdsTrustManagerFactory.java:153 | the alias of counter i starts with "alias", is longer than that prefix, and holds no upper-case letter |
| XdsTrust.AliasMap | xds/src/main/java/io/grpc/xds/internal/security/trust/XdsTrustManagerFactory.java:149-155 | every key of the store built by the alias loop is already lower-case, so the store's folding leaves it as it is |
| TrustModel.ValidationContext.TrustedCa | xds/src/main/java/io/grpc/xds/internal/security/trust/XdsTrustManagerFactory.java:104-105 | `getTrustedCa()` returns the context's trusted CA when it has one, and otherwise the default DataSource, whose specifier case is SPECIFIER_NOT_SET |
| KeyStores.KeyStore.StoredKeysFindTheirEntries | xds/src/main/java/io/grpc/xds/internal/security/trust/XdsTrustManagerFactory.java:151-152 | in a valid store, whose keys are all lower-case, an entry is found under its own key and under every spelling of it that folds to that key |
| Text.DecimalInjective | xds/src/main/java/io/grpc/xds/internal/security/trust/XdsTrustManagerFactory.java:149-154 | two counters with the same decimal rendering are equal, so `"alias" + i` never repeats |
| Text.DecimalDigits | xds/src/main/java/io/grpc/xds/internal/security/trust/XdsTrustManagerFactory.java:151-153 | the rendering of the counter consists of digits only, so it contains no upper-case letter |
| XdsTrust.AliasIsLowerCase | xds/src/main/java/io/grpc/xds/internal/security/trust/XdsTrustManagerFactory.java:151-153 | every alias equals its own lower-cased form, as the comment requires |
| XdsTrust.AliasesAreDistinctStoreKeys | xds/src/main/java/io/grpc/xds/internal/security/trust/XdsTrustManagerFactory.java:151-153 | distinct counters give distinct store keys even after the store folds case |
| XdsTrust.AliasMapKeys | xds/src/main/java/io/grpc/xds/internal/security/trust/XdsTrustManagerFactory.java:149-155 | after n turns of the loop the store's keys are exactly "alias1" to "alias<n>" |
| XdsTrust.AliasMapNextIsFresh | xds/src/main/java/io/grpc/xds/internal/security/trust/XdsTrustManagerFactory.java:149-155 | the alias written in turn n+1 is not yet in the store, so no entry is overwritten |
| XdsTrust.AliasMapContents | xds/src/main/java/io/grpc/xds/internal/security/trust/XdsTrustManagerFactory.java:149-155 | after the loop over n certificates the store has exactly n entries and "alias<k+1>" holds certs[k] |
| XdsTrust.LookupFindsEachCertificate | xds/src/main/java/io/grpc/xds/internal/security/trust/XdsTrustManagerFactory.java:151-153 | in the filled store, an alias written in any letter case that folds to "alias<i>" finds certs[i-1] |
| KeyStores.KeyStore.constructor | xds/src/main/java/io/grpc/xds/internal/security/trust/XdsTrustManagerFactory.java:146 | `KeyStore.getInstance` yields an empty store that is not yet loaded |
| KeyStores.KeyStore.Load | xds/src/main/java/io/grpc/xds/internal/security/trust/XdsTrustManagerFactory.java:147-148 | `load(null, null)` leaves the store loaded and empty |
| KeyStores.KeyStore.SetCertificateEntry | xds/src/main/java/io/grpc/xds/internal/security/trust/XdsTrustManagerFactory.java:151-153 | the store either rejects the entry (not loaded, or certificate refused) and changes nothing, or maps the lower-cased alias to the certificate; all keys stay lower-case |
| KeyStores.KeyStore.GetCertificate | xds/src/main/java/io/grpc/xds/internal/security/trust/XdsTrustManagerFactory.java:151 | lookup folds the alias to lower case, the same way insertion does |
| XdsTrust.StoreCertificates | xds/src/main/java/io/grpc/xds/internal/security/trust/XdsTrustManagerFactory.java:149-155 | the loop succeeds exactly when every certificate is storable, and then leaves the store equal to the alias map with one entry per certificate |
| XdsTrust.FirstExtended | xds/src/main/java/io/grpc/xds/internal/security/trust/XdsTrustManagerFactory.java:163-170 | gives the index of an extended trust manager with no extended one before it, or none when no element is extended |
| XdsTrust.FindExtendedDelegate | xds/src/main/java/io/grpc/xds/internal/security/trust/XdsTrustManagerFactory.java:161-170 | the scan finds nothing exactly when the array is null or has no extended element; otherwise it finds the first extended element |
| XdsTrust.BuildAnchor | xds/src/main/java/io/grpc/xds/internal/security/trust/XdsTrustManagerFactory.java:141-175 | every failure is a `CertStoreException`; it wraps a cause exactly when some set-up step fails; it is "Native X509 TrustManager not found." exactly when set-up succeeds but the array is null or has no extended element; a success is the first extended element |
| XdsTrust.CreateTrustManager | xds/src/main/java/io/grpc/xds/internal/security/trust/XdsTrustManagerFactory.java:141-175 | the steps in source order (factory lookup, store creation, load, alias loop, init, scan) produce exactly `BuildAnchor` |
| XdsTrust.CreateX509TrustManager | xds/src/main/java/io/grpc/xds/internal/security/trust/XdsTrustManagerFactory.java:122-126 | succeeds exactly when the delegate can be built, and then wraps that delegate with the given context; otherwise it raises the delegate's error |
| XdsTrust.CreateX509TrustManagerFromMap | xds/src/main/java/io/grpc/xds/internal/security/trust/XdsTrustManagerFactory.java:128-139 | a null map fails with `NullPointerException("spiffeTrustMapFile")`; on success the delegates have exactly the input's keys, each built from that key's list alone; a failure is the error of some failing domain |
| XdsTrust.MapOutcomeDeterminedBySuccess | xds/src/main/java/io/grpc/xds/internal/security/trust/XdsTrustManagerFactory.java:132-138 | with a non-null map, the map overload succeeds exactly when every domain's delegate can be built, and then there is only one possible result |
| XdsTrust.DelegateDependsOnlyOnOwnDomain | xds/src/main/java/io/grpc/xds/internal/security/trust/XdsTrustManagerFactory.java:134-137 | two trust maps that agree on a domain's certificate list give that domain the same delegate |
| XdsTrust.TrustedCaFromContext | xds/src/main/java/io/grpc/xds/internal/security/trust/XdsTrustManagerFactory.java:101-120 | fails with the empty-name `IllegalStateException` exactly for an empty file name; with `IllegalArgumentException("Not supported: <case>")` exactly for any other specifier case; succeeds only when the context has a trusted CA; a non-empty file name or inline bytes give the decoder's result |
| XdsTrust.StaticCheck | xds/src/main/java/io/grpc/xds/internal/security/trust/XdsTrustManagerFactory.java:80-84 | raises `IllegalArgumentException("only static certificateValidationContext expected")` exactly when the context is meant to be static, is non-null and has a trusted CA |
| XdsTrust.ContextPathWouldFailStaticCheck | xds/src/main/java/io/grpc/xds/internal/security/trust/XdsTrustManagerFactory.java:56-62 | whenever the context-only constructor obtains certificates, the static check would reject its context, and with `false` it passes |
| XdsTrust.XdsTrustManagerFactory.constructor | xds/src/main/java/io/grpc/xds/internal/security/trust/XdsTrustManagerFactory.java:53 | the new factory holds the given (possibly null) trust manager |
| XdsTrust.XdsTrustManagerFactory.FromValidationContext | xds/src/main/java/io/grpc/xds/internal/security/trust/XdsTrustManagerFactory.java:55-62 | errors of the trusted-CA dispatch propagate; otherwise it succeeds exactly when the delegate for the read certificates can be built, and then holds that delegate with the context |
| XdsTrust.XdsTrustManagerFactory.FromCertificates | xds/src/main/java/io/grpc/xds/internal/security/trust/XdsTrustManagerFactory.java:64-68 | rejects a non-null context with a trusted CA; otherwise it succeeds exactly when the delegate can be built, and then holds it with the context |
| XdsTrust.XdsTrustManagerFactory.FromSpiffeTrustMap | xds/src/main/java/io/grpc/xds/internal/security/trust/XdsTrustManagerFactory.java:70-73 | rejects a context with a trusted CA, then a null map; a success always holds a trust manager with one delegate per domain |
| XdsTrust.XdsTrustManagerFactory.FromCertificatesWithMode | xds/src/main/java/io/grpc/xds/internal/security/trust/XdsTrustManagerFactory.java:75-86 | the static check comes first; then the factory holds the single-delegate trust manager, or construction fails with the delegate's error |
| XdsTrust.XdsTrustManagerFactory.FromSpiffeTrustMapWithMode | xds/src/main/java/io/grpc/xds/internal/security/trust/XdsTrustManagerFactory.java:88-99 | with `false` it always succeeds and leaves the trust manager null; with `true` it performs the static check, then the map build, and a success holds the trust manager |
| XdsTrust.XdsTrustManagerFactory.EngineInitFromKeyStore | xds/src/main/java/io/grpc/xds/internal/security/trust/XdsTrustManagerFactory.java:177-180 | fails with `UnsupportedOperationException` for every key store, null included |
| XdsTrust.XdsTrustManagerFactory.EngineInitFromParameters | xds/src/main/java/io/grpc/xds/internal/security/trust/XdsTrustManagerFactory.java:182-185 | fails with `UnsupportedOperationException` for every parameter object |
| XdsTrust.XdsTrustManagerFactory.EngineGetTrustManagers | xds/src/main/java/io/grpc/xds/internal/security/trust/XdsTrustManagerFactory.java:187-190 | returns an array of length 1 whose only element is the factory's trust manager |

## Left out

- Reading and decoding certificates (`CertificateUtils.toX509Certificates`, `File`, `InputStream`) are I/O and code outside this file. They are the two functions of `Decoder`. Each may fail only with a `CertificateException` or an `IOException`.
- The JCA internals are library code that is not visible: `TrustManagerFactory.getInstance` and `init`, the default-algorithm lookup, and `KeyStore`'s PKCS12 storage. They are reduced to the fault flags and oracles of `Platform`. The trust managers the platform returns depend only on the store's entries.
- Chain and SAN verification inside `XdsX509TrustManager` is another class, and it is cryptography. That trust manager is the record it is built from: the context plus one delegate or a map of delegates.
- Logging (`logger.log(Level.SEVERE, …)`) and the Netty `SimpleTrustManagerFactory` base class add no behaviour.
- Of the protobuf `CertificateValidationContext`, only the trusted-CA `DataSource` and the list of SAN matchers are kept. Specifier cases other than a file name and inline bytes appear only by name.
- Null certificate arrays, null lists or null keys in the trust map, and null certificates are not modelled. Certificates are values.
- `Text.Lower` lower-cases ASCII letters only. `Locale.ENGLISH` also folds non-ASCII letters, but aliases contain none.
- `CreateTrustManager` relies on the Java `int` alias counter never wrapping. It runs from 1 to the array's length, and a Java array has at most 2^31 - 1 elements.
- `XdsTrust.CreateX509TrustManagerFromMap`: when several domains fail, the contract does not say which domain's error is raised. The order of HashMap iteration is unspecified, so the model picks the next key arbitrarily.
- `XdsTrust.StoreCertificates` and `XdsTrust.FindExtendedDelegate` are the two loops of `createTrustManager`, written as separate methods. Their order and effect are unchanged.
