/** The policy as written, the policy as compiled, and what goes into their hashes. */
module PolicyTypes {
  import opened Durations

  const CURRENT_VERSION := 1
  const DEFAULT_RENEW_BEFORE := 30 * 24 * HOUR

  datatype Acme = Acme(challenge: string, credentials: string)

  datatype RawProfile = RawProfile(profileType: string, dnsNames: seq<string>, acme: Acme, renewBefore: int)

  datatype RawHost = RawHost(identity: string, profiles: seq<string>)

  datatype Config = Config(version: int, profiles: map<string, RawProfile>, hosts: map<string, RawHost>)

  datatype CompiledProfile = CompiledProfile(
    name: string, profileType: string, dnsNames: seq<string>, acme: Acme, renewBefore: int, hash: string)
  {
    function HashInput(): ProfileHashInput {
      ProfileHashInput(profileType, dnsNames, acme, renewBefore)
    }
  }

  datatype CompiledHost = CompiledHost(name: string, identity: string, profiles: set<string>)

  datatype CompiledPolicy = CompiledPolicy(
    version: int,
    profiles: map<string, CompiledProfile>,
    hostsByName: map<string, CompiledHost>,
    hostsByIdentity: map<string, CompiledHost>,
    hash: string)

  /** The printed form of a duration determines it, so the duration itself stands here. */
  datatype ProfileHashInput = ProfileHashInput(
    profileType: string, dnsNames: seq<string>, acme: Acme, renewBefore: int)

  datatype ProfileHashRecord = ProfileHashRecord(name: string, hash: string)

  datatype HostHashRecord = HostHashRecord(name: string, identity: string, profiles: seq<string>)

  datatype PolicyHashInput = PolicyHashInput(
    version: int, profiles: seq<ProfileHashRecord>, hosts: seq<HostHashRecord>)

  /** JSON encoding, SHA-256 and hex in one: a digest of each kind of input. */
  datatype Hasher = Hasher(ofProfile: ProfileHashInput -> string, ofPolicy: PolicyHashInput -> string)
  {
    ghost predicate CollisionFree() {
      && (forall a, b :: ofProfile(a) == ofProfile(b) ==> a == b)
      && (forall a, b :: ofPolicy(a) == ofPolicy(b) ==> a == b)
    }
  }
}
