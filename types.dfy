/** Data model shared by the key store and the trust-manager factory: certificates,
    trust managers, the validation context, the error taxonomy and the platform
    (JCA) services the factory relies on, reduced to fault flags and oracles. */
module TrustModel {

  datatype Option<+T> = None | Some(value: T)

  datatype Result<+T, +E> = Success(value: T) | Failure(error: E)

  /** A check that either passes or raises an error (a Java `void` that may throw). */
  datatype Outcome<+E> = Pass | Fail(error: E)

  /** A parsed X.509 certificate; its encoding is carried along and never inspected. */
  datatype Cert = Cert(der: seq<bv8>)

  /** A trust manager handed out by the platform's TrustManagerFactory. `isExtended`
      says whether it is an X509ExtendedTrustManager (hostname/SAN-aware checks). */
  datatype TrustManager = TrustManager(handle: nat, isExtended: bool)

  type ExtendedTrustManager = tm: TrustManager | tm.isExtended witness TrustManager(0, true)

  /** The `specifier` oneof of an Envoy DataSource. Every case other than a file name
      and inline bytes is `OtherSpecifier`, carrying the name of its case. */
  datatype DataSource =
    | Filename(name: string)
    | InlineBytes(bytes: seq<bv8>)
    | OtherSpecifier(specifierCase: OtherCase)

  /** The name of a specifier case other than FILENAME and INLINE_BYTES. */
  type OtherCase = c: string | c != "FILENAME" && c != "INLINE_BYTES" witness SPECIFIER_NOT_SET

  /** The parts of a CertificateValidationContext this core looks at: the optional
      trusted-CA source, and the SAN rules that are passed through untouched. */
  datatype ValidationContext = ValidationContext(trustedCa: Option<DataSource>, matchSubjectAltNames: seq<string>)
  {
    predicate HasTrustedCa() { trustedCa.Some? }

    /** `getTrustedCa()`: an unset message field reads as the default DataSource,
        whose specifier case is SPECIFIER_NOT_SET. */
    function TrustedCa(): (ds: DataSource)
      ensures HasTrustedCa() ==> Some(ds) == trustedCa
      ensures !HasTrustedCa() ==> ds == OtherSpecifier(SPECIFIER_NOT_SET)
    {
      if trustedCa.Some? then trustedCa.value else OtherSpecifier(SPECIFIER_NOT_SET)
    }
  }

  const SPECIFIER_NOT_SET := "SPECIFIER_NOT_SET"

  /** The checked exceptions of the platform's store and factory set-up. */
  datatype SetupFault = NoSuchAlgorithm | KeyStoreFault | IOFault | CertificateFault

  datatype Error =
    /** CertStoreException: wrapping a set-up fault, or (None) "Native X509 TrustManager not found." */
    | CertStore(cause: Option<SetupFault>)
    /** CertificateException raised while reading trusted-CA certificates */
    | CertificateError
    /** IOException raised while reading trusted-CA certificates */
    | IOError
    | IllegalArgument(message: string)
    | IllegalState(message: string)
    /** NullPointerException; an implicit one (a dereference of null) has message "" */
    | NullPointer(message: string)
    | UnsupportedOperation

  /** What load(null, null) may throw: IOException, NoSuchAlgorithmException, CertificateException. */
  type LoadFault = f: SetupFault | !f.KeyStoreFault? witness IOFault

  /** What the certificate reader may throw. */
  type ReadError = e: Error | e.CertificateError? || e.IOError? witness IOError

  const ONLY_STATIC_EXPECTED := "only static certificateValidationContext expected"
  const EMPTY_FILE_NAME := "trustedCa.file-name in certificateValidationContext cannot be empty"
  const NULL_TRUST_MAP := "spiffeTrustMapFile"

  /** The JCA services `createTrustManager` uses, as fault flags and oracles:
      - defaultAlgorithmAvailable: TrustManagerFactory.getInstance(default algorithm) succeeds;
      - pkcs12Available: KeyStore.getInstance("PKCS12") succeeds;
      - loadFault: what load(null, null) throws, if anything;
      - storable: setCertificateEntry accepts the certificate;
      - initSucceeds: tmf.init accepts the populated store (given by its entries);
      - trustManagers: tmf.getTrustManagers() after init, None standing for null. */
  datatype Platform = Platform(
    defaultAlgorithmAvailable: bool,
    pkcs12Available: bool,
    loadFault: Option<LoadFault>,
    storable: Cert -> bool,
    initSucceeds: map<string, Cert> -> bool,
    trustManagers: map<string, Cert> -> Option<seq<TrustManager>>)

  /** CertificateUtils.toX509Certificates, for a file name and for an inline byte stream. */
  datatype Decoder = Decoder(
    fromFile: string -> Result<seq<Cert>, ReadError>,
    fromBytes: seq<bv8> -> Result<seq<Cert>, ReadError>)

  /** XdsX509TrustManager, as the record it is built from: the validation context and
      either one delegate or one delegate per SPIFFE trust domain. */
  datatype XdsX509TrustManager =
    | Single(context: Option<ValidationContext>, delegate: ExtendedTrustManager)
    | Spiffe(context: Option<ValidationContext>, delegates: map<string, ExtendedTrustManager>)
}
