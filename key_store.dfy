/** The PKCS12 KeyStore as `createTrustManager` uses it: an uninitialised store that
    must be loaded before use, and certificate entries whose aliases are folded to
    lower case, so that two aliases differing only in case name the same entry. */
module KeyStores {
  import opened TrustModel
  import opened Text

  class KeyStore {
    /** Whether the certificate can be stored (setCertificateEntry throws otherwise). */
    const storable: Cert -> bool
    /** Set by load(); an uninitialised store refuses every entry. */
    var loaded: bool
    /** The entries, keyed by the lower-cased alias. */
    var entries: map<string, Cert>

    ghost predicate Valid()
      reads this
    {
      forall a :: a in entries ==> IsLowerCase(a)
    }

    /** KeyStore.getInstance("PKCS12"): a store that has not been loaded. */
    constructor (storable: Cert -> bool)
      ensures this.storable == storable
      ensures !loaded && entries == map[] && Valid()
    {
      this.storable := storable;
      loaded := false;
      entries := map[];
    }

    /** load(null, null): initialise an empty store. */
    method Load()
      modifies this
      ensures loaded && entries == map[] && Valid()
    {
      loaded := true;
      entries := map[];
    }

    /** setCertificateEntry(alias, cert): `ok` is false where the store throws a
        KeyStoreException (not loaded, or the certificate refused), and then nothing changes. */
    method SetCertificateEntry(alias: string, cert: Cert) returns (ok: bool)
      requires Valid()
      modifies this`entries
      ensures Valid()
      ensures ok == (loaded && storable(cert))
      ensures entries == if ok then old(entries)[Lower(alias) := cert] else old(entries)
    {
      ok := loaded && storable(cert);
      if ok {
        LowerIdempotent(alias);
        entries := entries[Lower(alias) := cert];
      }
    }

    /** getCertificate(alias): lookup folds the alias the same way insertion did. */
    function GetCertificate(alias: string): (c: Option<Cert>)
      reads this
      ensures c.Some? <==> Lower(alias) in entries
      ensures c.Some? ==> c.value == entries[Lower(alias)]
    {
      if Lower(alias) in entries then Some(entries[Lower(alias)]) else None
    }

    /** In a valid store every entry is found under its own key, and since lookup
        folds case, under every spelling of that key that folds to it. */
    lemma StoredKeysFindTheirEntries(key: string, alias: string)
      requires Valid()
      requires key in entries && Lower(alias) == key
      ensures GetCertificate(key) == Some(entries[key])
      ensures GetCertificate(alias) == Some(entries[key])
    {
    }
  }
}
