/** The CA root certificate factory of ca/certificate.go.

    The certificate template is a pure mapping of the inputs onto the X.509
    fields of RFC 5280. The RSA and X.509 library calls (key generation,
    signing, parsing, DER marshalling) are the fields of a `Crypto` value, so the
    model says which inputs reach them and how their errors flow, not what they
    compute. A PEM record is kept as its block: the label RFC 7468 gives the
    content type and the DER payload; the base64 armouring is not modelled. */
module CA {
  import opened Wrappers
  import opened TimeRange
  import opened Sequencing

  type byte = x: int | 0 <= x < 256
  type Der = seq<byte>

  const RSAKeySize: nat := 4096

  /** PEM labels: section 5 of RFC 7468 for certificates, section 13 for
      SubjectPublicKeyInfo public keys, and the PKCS #1 label Go uses for RSA
      private keys. */
  const CertificateLabel: string := "CERTIFICATE"
  const RSAPrivateKeyLabel: string := "RSA PRIVATE KEY"
  const PublicKeyLabel: string := "PUBLIC KEY"

  datatype AltNames = AltNames(dnsNames: seq<string>, ips: seq<seq<byte>>)

  /** The subject identity a caller asks for. */
  datatype CertificateConfig = CertificateConfig(
    country: string,
    commonName: string,
    organization: seq<string>,
    altNames: AltNames)

  datatype PublicKey = PublicKey(modulus: nat, exponent: nat)
  /** As in Go's `rsa.PrivateKey`, the private key embeds its public key. */
  datatype PrivateKey = PrivateKey(publicKey: PublicKey, exponent: nat)

  /** The subject distinguished name (pkix.Name) fields the factory sets. */
  datatype Name = Name(country: string, commonName: string, organization: seq<string>)

  /** Key usage bits of section 4.2.1.3 of RFC 5280; a bit mask becomes a set. */
  datatype KeyUsage = DigitalSignature | KeyEncipherment | CertSign

  /** The x509.Certificate fields the template fills in. */
  datatype Template = Template(
    serialNumber: int,
    subject: Name,
    notBefore: int,
    notAfter: int,
    keyUsage: set<KeyUsage>,
    basicConstraintsValid: bool,
    isCA: bool,
    dnsNames: seq<string>)

  /** A parsed certificate: its DER encoding (`Raw`) and the fields read back. */
  datatype X509Certificate = X509Certificate(raw: Der, fields: Template)

  datatype PemBlock = PemBlock(typeLabel: string, bytes: Der)

  /** The issued certificate record handed to the caller. */
  datatype Certificate = Certificate(
    host: string,
    validFor: int,
    unit: string,
    validSince: int,
    validTill: int,
    certificatePem: PemBlock,
    privateKeyPem: PemBlock,
    publicKeyPem: PemBlock)

  /** The library collaborators, randomness included: rsa.GenerateKey,
      x509.CreateCertificate (template, parent, public key, signing key),
      x509.ParseCertificate, x509.MarshalPKIXPublicKey and
      x509.MarshalPKCS1PrivateKey. All but the last may fail. */
  datatype Crypto = Crypto(
    generateKey: nat -> Result<PrivateKey>,
    createCertificate: (Template, Template, PublicKey, PrivateKey) -> Result<Der>,
    parseCertificate: Der -> Result<Template>,
    marshalPKIXPublicKey: PublicKey -> Result<Der>,
    marshalPKCS1PrivateKey: PrivateKey -> Der)

  /** The library collaborators fail only with library errors, never with an
      error value the core raises itself. */
  ghost predicate LibraryErrorsOnly(crypto: Crypto) {
    && (forall n :: crypto.generateKey(n).Failure? ==> crypto.generateKey(n).error.LibraryError?)
    && (forall t, p, pub, priv :: crypto.createCertificate(t, p, pub, priv).Failure? ==>
          crypto.createCertificate(t, p, pub, priv).error.LibraryError?)
    && (forall der :: crypto.parseCertificate(der).Failure? ==> crypto.parseCertificate(der).error.LibraryError?)
    && (forall pub :: crypto.marshalPKIXPublicKey(pub).Failure? ==>
          crypto.marshalPKIXPublicKey(pub).error.LibraryError?)
  }

  /** NewPrivateKey: a fresh RSA key of RSAKeySize bits, or the generator's
      error unchanged. */
  function NewPrivateKey(crypto: Crypto): (r: Result<PrivateKey>)
    ensures r == crypto.generateKey(4096)
  {
    crypto.generateKey(RSAKeySize)
  }

  function EncodePublicKeyAsPEM(crypto: Crypto, key: PublicKey): (r: Result<PemBlock>)
    ensures r.Success? <==> crypto.marshalPKIXPublicKey(key).Success?
    ensures r.Failure? ==> r.error == crypto.marshalPKIXPublicKey(key).error
    ensures r.Success? ==> r.value == PemBlock(PublicKeyLabel, crypto.marshalPKIXPublicKey(key).value)
  {
    var der :- crypto.marshalPKIXPublicKey(key);
    Success(PemBlock(PublicKeyLabel, der))
  }

  function EncodePrivateKeyAsPEM(crypto: Crypto, key: PrivateKey): (r: PemBlock)
    ensures r.typeLabel == RSAPrivateKeyLabel && r.bytes == crypto.marshalPKCS1PrivateKey(key)
  {
    PemBlock(RSAPrivateKeyLabel, crypto.marshalPKCS1PrivateKey(key))
  }

  function EncodeCertificateAsPEM(cert: X509Certificate): (r: PemBlock)
    ensures r.typeLabel == CertificateLabel && r.bytes == cert.raw
  {
    PemBlock(CertificateLabel, cert.raw)
  }

  /** The template of NewRootCertificate. Serial, subject and validity come
      from the inputs verbatim; every template is a CA certificate (basic
      constraints valid, CA flag set) whose key usage is exactly key
      encipherment, digital signature and certificate signing. */
  function RootTemplate(cfg: CertificateConfig, host: string, seqNo: int, validSince: int, validTill: int): (t: Template)
    ensures t.serialNumber == seqNo
    ensures t.subject.country == cfg.country
    ensures t.subject.commonName == cfg.commonName
    ensures t.subject.organization == cfg.organization
    ensures t.notBefore == validSince && t.notAfter == validTill
    ensures t.isCA && t.basicConstraintsValid
    ensures t.keyUsage == {KeyEncipherment, DigitalSignature, CertSign}
  {
    Template(
      serialNumber := seqNo,
      subject := Name(cfg.country, cfg.commonName, cfg.organization),
      notBefore := validSince,
      notAfter := validTill,
      keyUsage := {KeyEncipherment, DigitalSignature, CertSign},
      basicConstraintsValid := true,
      isCA := true,
      dnsNames := [host])
  }

  /** NewRootCertificate: build the template, sign it with itself as parent,
      and parse the DER the signer returns. */
  function NewRootCertificate(cfg: CertificateConfig, host: string, seqNo: int,
                              validSince: int, validTill: int,
                              publicKey: PublicKey, privateKey: PrivateKey,
                              crypto: Crypto): (r: Result<X509Certificate>)
    ensures var t := RootTemplate(cfg, host, seqNo, validSince, validTill);
            var signed := crypto.createCertificate(t, t, publicKey, privateKey);
            && (signed.Failure? ==> r == Failure(signed.error))
            && (signed.Success? ==> r.Success? == crypto.parseCertificate(signed.value).Success?)
            && (signed.Success? && r.Failure? ==> r.error == crypto.parseCertificate(signed.value).error)
            && (r.Success? ==> signed.Success? && r.value.raw == signed.value)
            && (r.Success? ==> r.value.fields == crypto.parseCertificate(signed.value).value)
  {
    var template := RootTemplate(cfg, host, seqNo, validSince, validTill);
    var der :- crypto.createCertificate(template, template, publicKey, privateKey);
    var fields :- crypto.parseCertificate(der);
    Success(X509Certificate(der, fields))
  }

  /** What NewCertificate produces once it holds the serial `seqNo`: the stages
      validity window, key pair, signed certificate and public-key PEM, each
      returning its error unchanged and ending the issuance. */
  function Issuance(cfg: CertificateConfig, host: string, validFor: int, unit: string,
                    now: int, seqNo: int, crypto: Crypto): (r: Result<Certificate>)
    ensures !IsUnit(unit) ==> r == Failure(InvalidUnit(unit))
    ensures r.Success? ==> IsUnit(unit)
    ensures r.Success? ==> r.value.host == host && r.value.validFor == validFor && r.value.unit == unit
    ensures r.Success? ==> r.value.validSince == now
    ensures r.Success? ==> r.value.validTill - r.value.validSince == validFor * UnitDuration(unit).value
    ensures r.Success? && validFor > 0 ==> r.value.validSince < r.value.validTill
  {
    var window :- GetValidityPeriod(validFor, unit, now);
    var privateKey :- NewPrivateKey(crypto);
    var cert :- NewRootCertificate(cfg, host, seqNo, window.since, window.till,
                                   privateKey.publicKey, privateKey, crypto);
    var publicKeyPem :- EncodePublicKeyAsPEM(crypto, privateKey.publicKey);
    Success(Certificate(
      host := host,
      validFor := validFor,
      unit := unit,
      validSince := window.since,
      validTill := window.till,
      certificatePem := EncodeCertificateAsPEM(cert),
      privateKeyPem := EncodePrivateKeyAsPEM(crypto, privateKey),
      publicKeyPem := publicKeyPem))
  }

  /** NewCertificate: draw a serial, then run the stages in order, returning at
      the first error. The serial is consumed whatever the outcome. The stages are
      those of the function Issuance, which specifies this method. */
  method NewCertificate(sequencer: Sequencer, crypto: Crypto, now: int,
                        cfg: CertificateConfig, host: string, validFor: int, unit: string)
    returns (r: Result<Certificate>)
    requires sequencer.Valid()
    modifies sequencer
    ensures sequencer.Valid()
    ensures sequencer.seqNo == old(sequencer.seqNo) + 1
    ensures sequencer.issued == old(sequencer.issued) + [sequencer.seqNo]
    ensures r == Issuance(cfg, host, validFor, unit, now, sequencer.seqNo, crypto)
  {
    var seqNo, err := sequencer.Next();
    match err {
      case Some(e) => return Failure(e);
      case None =>
    }

    var window :- GetValidityPeriod(validFor, unit, now);

    var privateKey :- NewPrivateKey(crypto);
    var publicKey := privateKey.publicKey;

    var cert :- NewRootCertificate(cfg, host, seqNo, window.since, window.till,
                                   publicKey, privateKey, crypto);

    var publicKeyPem :- EncodePublicKeyAsPEM(crypto, publicKey);
    r := Success(Certificate(
      host := host,
      validFor := validFor,
      unit := unit,
      validSince := window.since,
      validTill := window.till,
      certificatePem := EncodeCertificateAsPEM(cert),
      privateKeyPem := EncodePrivateKeyAsPEM(crypto, privateKey),
      publicKeyPem := publicKeyPem));
  }

  // Template fields

  /** The subject alternative names are exactly `[host]`: the configuration's
      alternative names never reach the template. */
  lemma RootTemplateIgnoresAltNames(cfg: CertificateConfig, alt: AltNames, host: string,
                                    seqNo: int, validSince: int, validTill: int)
    ensures RootTemplate(cfg, host, seqNo, validSince, validTill).dnsNames == [host]
    ensures RootTemplate(cfg.(altNames := alt), host, seqNo, validSince, validTill)
         == RootTemplate(cfg, host, seqNo, validSince, validTill)
  {
  }

  // The issuance pipeline

  /** Issuance stops at the first failing stage, in the order validity window,
      key generation, signing and parsing, public-key marshalling, and returns
      that stage's error unchanged. */
  lemma IssuanceErrorOrder(cfg: CertificateConfig, host: string, validFor: int, unit: string,
                           now: int, seqNo: int, crypto: Crypto)
    ensures var r := Issuance(cfg, host, validFor, unit, now, seqNo, crypto);
            var key := crypto.generateKey(RSAKeySize);
            && (!IsUnit(unit) ==> r == Failure(InvalidUnit(unit)))
            && (IsUnit(unit) && key.Failure? ==> r == Failure(key.error))
            && (IsUnit(unit) && key.Success? ==>
                  var w := GetValidityPeriod(validFor, unit, now).value;
                  var cert := NewRootCertificate(cfg, host, seqNo, w.since, w.till,
                                                 key.value.publicKey, key.value, crypto);
                  var pub := crypto.marshalPKIXPublicKey(key.value.publicKey);
                  && (cert.Failure? ==> r == Failure(cert.error))
                  && (cert.Success? && pub.Failure? ==> r == Failure(pub.error)))
  {
  }

  /** All or nothing: a record is produced exactly when every stage succeeds. */
  lemma IssuanceSucceedsIff(cfg: CertificateConfig, host: string, validFor: int, unit: string,
                            now: int, seqNo: int, crypto: Crypto)
    ensures var key := crypto.generateKey(RSAKeySize);
            Issuance(cfg, host, validFor, unit, now, seqNo, crypto).Success?
            <==>
            && IsUnit(unit)
            && key.Success?
            && (var w := GetValidityPeriod(validFor, unit, now).value;
                var t := RootTemplate(cfg, host, seqNo, w.since, w.till);
                var signed := crypto.createCertificate(t, t, key.value.publicKey, key.value);
                && signed.Success?
                && crypto.parseCertificate(signed.value).Success?
                && crypto.marshalPKIXPublicKey(key.value.publicKey).Success?)
  {
  }

  /** The PEM blocks of a successful record: the certificate self-signed, with
      the generated key pair, from the template for this serial and window, and
      the two halves of that key pair. */
  lemma IssuanceRecord(cfg: CertificateConfig, host: string, validFor: int, unit: string,
                       now: int, seqNo: int, crypto: Crypto)
    requires Issuance(cfg, host, validFor, unit, now, seqNo, crypto).Success?
    ensures var c := Issuance(cfg, host, validFor, unit, now, seqNo, crypto).value;
            var key := crypto.generateKey(RSAKeySize).value;
            var t := RootTemplate(cfg, host, seqNo, now, now + validFor * UnitDuration(unit).value);
            && c.certificatePem == PemBlock(CertificateLabel, crypto.createCertificate(t, t, key.publicKey, key).value)
            && c.privateKeyPem == PemBlock(RSAPrivateKeyLabel, crypto.marshalPKCS1PrivateKey(key))
            && c.publicKeyPem == PemBlock(PublicKeyLabel, crypto.marshalPKIXPublicKey(key.publicKey).value)
  {
  }

  /** With collaborators that fail only with library errors, an issuance fails
      with InvalidUnit exactly when the unit is unknown, so a caller who sees
      that error knows the unit was bad. */
  lemma IssuanceInvalidUnitIff(cfg: CertificateConfig, host: string, validFor: int, unit: string,
                               now: int, seqNo: int, crypto: Crypto)
    requires LibraryErrorsOnly(crypto)
    ensures var r := Issuance(cfg, host, validFor, unit, now, seqNo, crypto);
            (r.Failure? && r.error.InvalidUnit?) <==> !IsUnit(unit)
  {
  }
}
