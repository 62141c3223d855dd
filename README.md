# certserv: a Dafny model of the self-signed CA certificate factory

This project models the certificate facility of certserv. It has three parts:

- **Validity calculator** (`utl/timerange.go`, module `TimeRange` in `timerange.dfy`). A unit symbol `d`, `w` or `y` maps to exactly 24h, 7 x 24h or 365 x 24h, with no leap-year adjustment. The window is `[now, now + validFor x duration]`. Any other unit is an `InvalidUnit` error and yields no window. Instants are integers counting nanoseconds from Go's zero `time.Time`, like `time.Duration`. The clock read `time.Now()` is the parameter `now`.
- **Sequencer** (`sequencer.go`, module `Sequencing` in `sequencer.dfy`). The package-level counter becomes a `Sequencer` object with a `seqNo` field. Its `Next` method stores the increment and returns it. A ghost history `issued` records every serial handed out, and `Valid()` ties that history to the counter. The factory receives the object as a parameter, so the counter is no longer ambient global state.
- **Certificate factory** (`ca/certificate.go`, module `CA` in `certificate.dfy`).
  - `RootTemplate` maps the inputs onto the X.509 fields of RFC 5280: subject, validity, basic constraints (section 4.2.1.9), key usage (section 4.2.1.3) and SAN DNS names (section 4.2.1.6).
  - `NewRootCertificate` self-signs that template and parses the result.
  - The three encoders build PEM blocks labelled as in RFC 7468: `CERTIFICATE` (section 5) and `PUBLIC KEY` (section 13), plus Go's PKCS #1 label `RSA PRIVATE KEY`.
  - `NewCertificate` is a method with early returns. It takes the sequencer; draws a serial; then computes the window, generates the key, signs, and assembles the record. It is proved equal to the function `Issuance`, and lemmas about `Issuance` state the error order, the all-or-nothing outcome and the record's fields.
  - The RSA and X.509 library calls are fields of a `Crypto` value: key generation (randomness included), `CreateCertificate`, `ParseCertificate` and the two DER marshallers. Each may fail, except PKCS #1 private-key marshalling. The model says which inputs reach them and how their errors flow, not what they compute.

`Wrappers` (`wrappers.dfy`) holds `Option`, a failure-compatible `Result` and the `Error` values. A library collaborator may fail with any `Error`; `LibraryError`, an opaque code, is the value meant for its errors. `CA.LibraryErrorsOnly` states that a collaborator keeps to that, and under it an issuance fails with `InvalidUnit` exactly when the unit is unknown.

Where the code does not compile or does not do what it evidently means, the model follows the intent:
- `GetValidityPriod` (ca/certificate.go:122) is `GetValidityPeriod`.
- `validTille` (ca/certificate.go:90) is `validTill`.
- The record variable redeclaring `cert` (ca/certificate.go:137) is a separate name.
- `EncodeCertificatePEM` and `EncodePrivateKeyPEM` (ca/certificate.go:143-144) are the encoders defined at lines 80 and 71.
- The record field `PublicKeyPREM` (ca/certificate.go:49) is the `PublicKeyPEM` that line 145 assigns.
- The missing imports of the `timerange` package (ca/certificate.go:122) and of `net` (ca/certificate.go:37) are taken as present.
- The two-value `EncodePublicKeyAsPEM` (ca/certificate.go:145) is checked for its error like the other stages.
- The undefined `generateKeyPair(RSAKeySize)` (ca/certificate.go:127) is `NewPrivateKey` with the public half taken from the private key.
- `var d time.Time` (utl/timerange.go:23) is a duration.
- The lock on the undefined `c.mu` (sequencer.go:17) is dropped along with the mutex.
- `fmt.Error` (utl/timerange.go:33) is `fmt.Errorf`.
- `d * validFor` (utl/timerange.go:39) multiplies a duration by an `int`; the model multiplies integers.
- The locals `since` and `till` (utl/timerange.go:38-39) are declared and never used, which Go rejects; the model keeps them as written, so they stay shadowing locals that are thrown away.
- The `int` counter returned as `int64` (sequencer.go:22), that `int64` passed as `seqNo int` (ca/certificate.go:132), and the `int` passed to `SetInt64` (ca/certificate.go:93) are all one unbounded integer in the model.
- The unused imports (ca/certificate.go:8, 14, 15, 17, 18) are dropped.

The members named "as written" (`TimeRange.GetValidityPeriodAsWritten`, `Sequencing.Sequencer.NextAsWritten`) model the text with only these repairs applied.

Two behaviours of the code are kept as they are:
- The code has no check on the count: a count of zero or less still yields a window, so `since < till` is only claimed when `validFor > 0`.
- The SAN list is exactly `[host]`; the configuration's `AltNames` are never read.

`pkix.Name.Country` is a list in Go's library, but the configuration's country is a single string. The model copies that string verbatim.

## Model

| member | source | states |
|---|---|---|
| TimeRange.UnitDuration | utl/timerange.go:11-34 | the duration is defined exactly for `d`, `w`, `y`; any other unit is `InvalidUnit(unit)`; every duration is a positive whole number of days |
| TimeRange.GetValidityPeriod | utl/timerange.go:22-42 | success exactly for a known unit, with `since = now` and `till - since = validFor x duration`; an unknown unit gives `InvalidUnit` and no window; `validFor > 0` gives `since < till` |
| TimeRange.GetValidityPeriodAsWritten | utl/timerange.go:22-42 | the code as written returns the zero time for both ends whatever the inputs; its error is nil exactly for a known unit |
| TimeRange.UnitDurations | utl/timerange.go:11-31 | `d`, `w`, `y` map to 24h, 7 x 24h and 365 x 24h |
| TimeRange.NoLeapAdjustment | utl/timerange.go:12-14 | a week is exactly 7 days and a year exactly 365 days |
| TimeRange.WindowOnSuccess | utl/timerange.go:36-39 | for a known unit the result is the window `[now, now + validFor x duration]` |
| TimeRange.TillStrictlyMonotone | utl/timerange.go:39 | for a fixed unit and `now`, a larger count gives a strictly later `till` |
| TimeRange.AsWrittenReturnsEmptyWindow | utl/timerange.go:36-42 | for a known unit and positive count, the code as written returns no error and the empty zero window, while the intended result is a non-empty window from `now` |
| TimeRange.OneYearIs365Days | utl/timerange.go:14 | one year from `now` ends exactly 365 days later |
| Sequencing.Serials | sequencer.go:12-22 | the first `n` calls hand out `n` values |
| Sequencing.SerialsAt | sequencer.go:12-20 | the k-th call, counting from 0, returns `k + 1`, so no value is skipped |
| Sequencing.SerialsIncreasing | sequencer.go:1-3 | the values of any `n` calls are strictly increasing, pairwise distinct and between 1 and `n` |
| Sequencing.Sequencer.constructor | sequencer.go:11-14 | the counter starts at the zero value 0 with nothing handed out |
| Sequencing.Sequencer.Next | sequencer.go:16-23 | returns the old counter plus one and stores it; the error is nil; the value is at least 1 and above every value handed out before; the history gains exactly that value |
| Sequencing.Sequencer.NextAsWritten | sequencer.go:20-22 | the code as written returns the counter plus one and changes nothing |
| Sequencing.AsWrittenRepeatsSerial | sequencer.go:16-23 | under the code as written, two successive calls return the same serial |
| Sequencing.FirstSerials | sequencer.go:12-22 | a fresh sequencer hands out 1, then 2 |
| CA.NewPrivateKey | ca/certificate.go:53-55 | asks the key generator for a 4096-bit RSA key and returns its key or its error unchanged |
| CA.EncodePublicKeyAsPEM | ca/certificate.go:58-68 | fails exactly when DER marshalling fails, with its error unchanged; otherwise the block labelled `PUBLIC KEY` whose payload is the marshalled DER |
| CA.EncodePrivateKeyAsPEM | ca/certificate.go:71-77 | the block labelled `RSA PRIVATE KEY` whose payload is the PKCS #1 DER of the key |
| CA.EncodeCertificateAsPEM | ca/certificate.go:80-86 | the block labelled `CERTIFICATE` whose payload is the certificate's raw DER |
| CA.RootTemplate | ca/certificate.go:92-105 | serial number, subject country, common name and organization, NotBefore and NotAfter are the inputs verbatim; IsCA and BasicConstraintsValid are true; key usage is exactly {KeyEncipherment, DigitalSignature, CertSign} |
| CA.NewRootCertificate | ca/certificate.go:89-113 | the same template is both subject and parent and is signed with the given key pair; a signing or parsing error is returned unchanged; on success the certificate's raw bytes are the signer's DER and its fields are what the parser read back |
| CA.Issuance | ca/certificate.go:116-149 | an unknown unit yields `InvalidUnit` whatever the library does; a record exists only for a known unit and carries host, count and unit as given, `validSince = now` and `validTill - validSince = validFor x duration`, with `validSince < validTill` when `validFor > 0` |
| CA.NewCertificate | ca/certificate.go:116-149 | consumes exactly one serial whatever the outcome, including on an invalid unit; the result is `Issuance` for that serial |
| CA.RootTemplateIgnoresAltNames | ca/certificate.go:104 | DNSNames is exactly `[host]`, and changing the configuration's alternative names does not change the template |
| CA.IssuanceErrorOrder | ca/certificate.go:116-146 | issuance stops at the first failure in the order validity, key generation, signing/parsing, public-key marshalling, and returns that error unchanged |
| CA.IssuanceSucceedsIff | ca/certificate.go:116-149 | a record is produced if and only if every stage succeeds; otherwise nothing partial is returned |
| CA.IssuanceInvalidUnitIff | ca/certificate.go:117-125 | when the library collaborators fail only with library errors, an issuance fails with `InvalidUnit` if and only if the unit is unknown |
| CA.IssuanceRecord | ca/certificate.go:137-146 | a record's PEM blocks are labelled `CERTIFICATE`, `RSA PRIVATE KEY` and `PUBLIC KEY`; the certificate block holds the DER self-signed from the template for this serial and window with the generated 4096-bit key pair, and the key blocks hold that key pair's DER |

## Findings

| source | as written | input that shows it | evidently intended | confidence | as-written member | corrected member |
|---|---|---|---|---|---|---|
| utl/timerange.go:36-40 | the guard `if err != nil` is inverted, and `:=` declares new `since` and `till` that shadow the named results, so the window is never returned | `validFor = 1`, `unit = "d"`: no error, and `since = till =` the zero time | for a known unit, return `[now, now + validFor x duration]`; for an unknown unit, return the error alone | high (not executed) | TimeRange.GetValidityPeriodAsWritten, TimeRange.AsWrittenReturnsEmptyWindow | TimeRange.GetValidityPeriod |
| sequencer.go:20 | `seqNo := seqNo + 1` declares a local that shadows the package counter, so the increment is never stored | two successive calls: both return 1 | store the increment, so successive calls return 1, 2, 3, ... | high (not executed) | Sequencing.Sequencer.NextAsWritten, Sequencing.AsWrittenRepeatsSerial | Sequencing.Sequencer.Next |

## Left out

- certserv.go: a demo HTTPS server and client (network I/O, TLS configuration, `log.Fatal`). Its `makeCert` duplicates the factory with a fixed serial and a 1024-bit key.
- Key generation, `x509.CreateCertificate` and `ParseCertificate`, DER marshalling: foreign library code. Each is a function-valued field of `CA.Crypto` that may fail, and nothing about it is interpreted.
- PEM base64 armouring (`pem.EncodeToMemory`): the record holds each PEM block as its label and DER payload, not as text.
- `StringAsJson`: JSON marshalling with a panic on error, library code.
- The mutex in sequencer.go: the model is sequential, so the atomicity of the read-increment-return step under concurrent callers is not captured.
- The wall-clock read and UTC conversion: `now` is an integer parameter, and time zones are ignored. Because `now` is passed in, the model does not capture that the Go code reads the clock after the serial is drawn.
- Integer widths: `validFor * duration` and the counter are unbounded integers, so int64 overflow of the window arithmetic and of the serial is not modelled.
- The text of the invalid-unit error message: only its unit is kept.
- That the result depends only on `(validFor, unit, now)` needs no lemma: `GetValidityPeriod` is a Dafny function of exactly those arguments.
- Key freshness across calls: `Crypto` is a value of pure functions, so two issuances with the same `Crypto` get the same key pair, whereas the Go code draws a fresh key from `rand.Reader` on every call (ca/certificate.go:54).
- The sequencer's error result: `Next` always returns `None`, so the `return nil, err` branch after it in `NewCertificate` is dead.
