/** What is left of certificates once PEM, ASN.1 and the cryptography are taken as given. */
module Pki {
  import opened Wrappers

  /** A public key is named by a string; two keys are the same when their names are. */
  datatype Cert = Cert(publicKey: string, dnsNames: seq<string>, notAfter: int)

  datatype Bundle = Bundle(
    certPem: string, chainPem: string, fullChainPem: string, serial: string, notBefore: int, notAfter: int)

  /**
   Decoding, as the program's libraries do it: what certificate or private key a file holds, the
   latter given by the public key it belongs to.
   */
  datatype Decoder = Decoder(cert: string -> Option<Cert>, key: string -> Option<string>)
}
