# go-registry core, modelled in Dafny

go-registry is a configuration registry for infrastructure tooling. It holds
organizations. Each organization owns NetScaler ADC environments (clusters of
devices, with logins and connection settings) and a certificate registry (ACME
services, accounts and DNS providers, plus key passphrases). Every entity
type `X` has an encrypted twin `SecureX`. The twin holds the same fields plus
per-instance crypto parameters, and an external transform engine converts one
form into the other.

This project models three pieces of logic:

- **Name index.** Every container level has a first-match lookup by name,
  failing with a formatted "not found" error, and an ordered list of names.
  `NameIndex` defines both once, generically, together with the
  specification predicates `IsLookup` and `IsNameList`. Each level
  instantiates them with its own list, name selector and miss error.
- **ADC endpoint resolution** (`AdcEnvironment`). An environment has an
  optional management node; the zero node means "absent". The resolver
  lists endpoints, picks an endpoint by name to build a device client, and
  decides which client to use: the management client, or the first peer
  that reports itself primary. The device library is a `DeviceApi` value
  with two functions: building a client and asking it whether it is
  primary. The control flow around them is modelled exactly.
- **ACME provider variable injection** (`ProcessEnv`, `AcmeProvider`). The
  process environment is a `map<string, string>`. Each `Setenv`/`Unsetenv`
  call is a fault oracle. Apply sets the variables in list order and stops
  at the first failure, with no rollback. Reset blindly unsets every listed
  key. The secure variant decrypts each variable just before setting it.

Two pairs of packages contain the same code. `netscaler/adc` copies the
registry package's ADC environment: the same Dafny functions model both
copies, and separate lemmas cite the copy. `certificates/acme` copies the
`AcmeProvider` Apply and Reset loops. The shared `ProcessEnv.SetAll` and
`ProcessEnv.UnsetAll` model that copy directly, and
`ProcessEnv.ResetUndoesAnyApply` states what the two loops do together. Registries whose miss
errors differ (`acme`, `certificates`, `machines/netscaler/adc`) get their
own lookups.

Modules: `Wrappers` (Option/Result), `Errors`, `NameIndex`, `Hex` (base16
as in section 8 of RFC 4648), `Transform`, `AdcNode`, `AdcEnvironment`,
`AdcRegistry`, `MachinesAdc`, `MachinesNetScaler`, `AcmeVariable`,
`ProcessEnv`, `AcmeProvider`, `AcmeRegistry`, `Acme`,
`CertificateRegistry`, `Certificates`, `MailRegistry`, `Registry`.

Conventions:

- A Go `(value, error)` result is a `Result<T, Error>`.
- `Decrypt` keeps Go's pair: the zero value together with an
  `Option<Error>`.
- `Error` distinguishes the typed item-not-found error, a plain formatted
  text, a `%w` wrapping (prefix plus cause), and an error from a
  collaborator outside the model.
- Decryption keys are byte sequences, because Go strings are byte strings.

## Model

| member | source | states |
|---|---|---|
| `Errors.NewItemNotFoundError` | pkg/registry/errors.go:21-31 | the error stores the item type and the name as given, and the fixed message "could not find" |
| `Errors.NotFoundTextShape` | pkg/registry/errors.go:39-41 | every not-found error reads "could not find ", then the item type, a space, and the name; its length is the sum of the parts |
| `Errors.NotFoundTextInjective` | pkg/registry/errors.go:39-41 | for a fixed item type, two different names always give two different error texts |
| `NameIndex.FirstMatch` | pkg/registry/registry.go:119-123 | the position found holds the name and no earlier position does; there is no position exactly when no element carries the name |
| `NameIndex.FindByName` | pkg/registry/registry.go:118-124 | the lookup succeeds exactly when some element carries the name; it returns the first such element in list order, and otherwise returns the level's miss error |
| `NameIndex.Names` | pkg/registry/registry.go:127-134 | the name list has one entry per element, in the same order, with no sorting or deduplication |
| `NameIndex.FoundIffListed` | pkg/registry/registry.go:118-134 | a lookup succeeds exactly for the names the name list contains |
| `NameIndex.NamesAreFound` | pkg/registry/registry.go:118-134 | the i-th listed name is found, and the element found is the first one carrying it, at or before position i |
| `NameIndex.MirroredLookups` | pkg/registry/registry.go:152-168 | when two lists agree on their names position by position, lookups over them succeed for the same names, pick the same position, fail with the same error and list the same names |
| `Hex.Encode` | pkg/registry/netscalelAdcNode.go:55 | the key text has two lowercase digits per key byte, high nibble first |
| `Hex.DecodeEncode` | pkg/registry/netscalelAdcNode.go:55 | decoding the key text gives back the key bytes |
| `Hex.EncodeInjective` | pkg/registry/netscalelAdcNode.go:55 | two different keys reach the engine as two different texts |
| `Transform.ConfigFor` | pkg/registry/registry.go:136-141 | both forms of an entity type report the pair (X, SecureX), both in X's own package: the decrypted side is the type itself and the encrypted side is the type behind the "Secure" prefix |
| `Transform.ConfigIdentifiesType` | pkg/registry/registry.go:170-175 | two entity types report the same transform pair exactly when they are the same type, which is the same name in the same package |
| `Transform.ConfigSidesDiffer` | pkg/registry/registry.go:136-141 | a transform never converts a type into itself: the secure twin is always a different type |
| `Transform.SameNamedRegistriesDiffer` | pkg/registry/acme/registry.go:73-78 | the ACME `Registry` and the root `Registry` share a type name but report different transform pairs |
| `AdcNode.NewNetScalerAdcNode` | pkg/registry/netscalelAdcNode.go:25-30 | the node carries the given name and address; it equals the zero node exactly when both are empty |
| `AdcNode.NodeFormsParallel` | pkg/registry/netscalelAdcNode.go:32-48 | the secure node has the plain node's fields, identically tagged, then the crypto parameters; the name is not sensitive and the address is |
| `AdcNode.DecryptNode` | pkg/registry/netscalelAdcNode.go:50-60 | the engine receives the base16 key text; on success the engine's node is returned with no error, and on failure the zero node is returned with the engine's error |
| `AdcEnvironment.GetCredentialByName` | pkg/registry/netscalerAdcEnvironment.go:44-51 | the lookup succeeds exactly when some credential carries the name and returns the first one; otherwise the error names both the credential and the environment |
| `AdcEnvironment.GetSecureCredentialByName` | pkg/registry/netscalerAdcEnvironment.go:215-222 | the same as the plain lookup, over the secure credentials, with the same error |
| `AdcEnvironment.HasManagement` | pkg/registry/netscalerAdcEnvironment.go:198-204 | a management node is present exactly when its name or its address is non-empty |
| `AdcEnvironment.HasNodes` | pkg/registry/netscalerAdcEnvironment.go:191-196 | peers are present exactly when the peer list is non-empty |
| `AdcEnvironment.GetNodes` | pkg/registry/netscalerAdcEnvironment.go:146-154 | the endpoints are the peers in order, followed by the management node exactly when one is present, so the length is the peer count or one more |
| `AdcEnvironment.GetNodeNames` | pkg/registry/netscalerAdcEnvironment.go:134-144 | one name per peer, in peer order; the management node is not listed |
| `AdcEnvironment.GetNodeNitroClient` | pkg/registry/netscalerAdcEnvironment.go:72-103 | an unknown name fails with "node not found in environment" and never calls the factory; otherwise the client is built for the first endpoint of GetNodes with that name (the management node included), and a factory error is wrapped |
| `AdcEnvironment.GetNodeScpClient` | pkg/registry/netscalerAdcEnvironment.go:53-70 | an unknown name fails with "could not intialize scp client"; otherwise the client targets the first matching endpoint's address plus ":22", and an SSH-configuration error is returned unwrapped |
| `AdcEnvironment.GetManagementClient` | pkg/registry/netscalerAdcEnvironment.go:105-131 | without a management node it fails with "no management node defined" and ignores the factory; otherwise it builds the client from the management name and address, and wraps a factory error with both names |
| `AdcEnvironment.ProbePeers` | pkg/registry/netscalerAdcEnvironment.go:171-188 | if every remaining peer reports non-primary, the result is "could not find a primary node"; otherwise the result is decided by the first peer that is primary or whose probe fails |
| `AdcEnvironment.GetPrimaryClient` | pkg/registry/netscalerAdcEnvironment.go:156-189 | a management client that can be built is returned; otherwise, with no peers, the result is "no individual nodes defined"; otherwise the first decisive peer in list order decides: its client if it is primary, or its wrapped build or query error; if every peer reports non-primary, the result is "could not find a primary node" |
| `AdcEnvironment.PeerProbeBuildsFirstSameNamedPeer` | pkg/registry/netscalerAdcEnvironment.go:173-174 | probing peer j builds the client of the first peer with the same name: never the management node, and never the not-found branch |
| `AdcEnvironment.ProbeIgnoresManagement` | pkg/registry/netscalerAdcEnvironment.go:173-185 | probing a peer gives the same outcome whether or not a management node is set |
| `AdcEnvironment.ProbePeersIgnoresManagement` | pkg/registry/netscalerAdcEnvironment.go:171-188 | peer probing never consults the management node |
| `AdcEnvironment.ManagementFailureFallsThrough` | pkg/registry/netscalerAdcEnvironment.go:162-169 | when the management client cannot be built, its error is discarded and the result is the same as for the environment without a management node |
| `AdcEnvironment.ManagementClientShortCircuits` | pkg/registry/netscalerAdcEnvironment.go:162-165 | when the management client is built it is returned whatever the primary-status query would answer, so no peer is probed |
| `AdcEnvironment.FirstDecisivePeer` | pkg/registry/netscalerAdcEnvironment.go:173-188 | if not every peer reports non-primary, there is a first peer, after only non-primary ones, whose probe is decisive |
| `AdcEnvironment.ProbePeersProvenance` | pkg/registry/netscalerAdcEnvironment.go:171-188 | a client found by peer probing from position i belongs to a peer that reported primary, after every peer from i up to it reported non-primary |
| `AdcEnvironment.PrimaryClientProvenance` | pkg/registry/netscalerAdcEnvironment.go:156-189 | a resolved client is either the management client or the client of a peer that reported primary after every earlier peer reported non-primary |
| `AdcEnvironment.SecondPeerPrimary` | pkg/registry/netscalerAdcEnvironment.go:173-186 | without a management node, with the first peer non-primary and the second primary, the second peer's client is returned |
| `AdcEnvironment.ManagementSentinel` | pkg/registry/netscaler/adc/environment.go:198-204 | a management node is present exactly when the field differs from the zero node, and the constructor called with two empty strings builds the "absent" value |
| `AdcEnvironment.NodeNamesCoverPeersOnly` | pkg/registry/netscaler/adc/environment.go:134-154 | the node names are the names of the peer part of GetNodes; GetNodes has one more entry exactly when a management node is present |
| `AdcEnvironment.ManagementClientNeedsManagement` | pkg/registry/netscaler/adc/environment.go:105-110 | without a management node, the management client fails and is the same for any two factories |
| `AdcEnvironment.CredentialNamesAreFound` | pkg/registry/netscaler/adc/environment.go:44-51 | every credential is found by its own name, as the first credential carrying that name |
| `AdcEnvironment.PrimaryClientDecisionSequence` | pkg/registry/netscaler/adc/environment.go:156-189 | the decision runs in three steps: the management client if it is built; else "no individual nodes defined" when there are no peers; else the outcome of probing the peers from the first |
| `AdcRegistry.GetEnvironmentByName` | pkg/registry/netscalerAdcRegistry.go:27-34 | returns the first environment with the name; fails with the "netscaler adc environment" not-found error exactly when there is none |
| `AdcRegistry.GetEnvironmentNames` | pkg/registry/netscalerAdcRegistry.go:36-42 | one name per environment, in list order |
| `AdcRegistry.GetSecureEnvironmentByName` | pkg/registry/netscalerAdcRegistry.go:60-67 | the same lookup over the secure environments, with the same miss error |
| `AdcRegistry.GetSecureEnvironmentNames` | pkg/registry/netscalerAdcRegistry.go:69-75 | one name per secure environment, in list order |
| `AdcRegistry.SecureLookupMirrorsPlain` | pkg/registry/netscalerAdcRegistry.go:60-75 | secure environments whose names match the plain ones give the same lookup answers, the same miss error and the same names |
| `MachinesAdc.GetEnvironmentByName` | pkg/registry/machines/netscaler/adc/registry.go:29-36 | returns the first environment with the name; fails with "could not find environment <name>" exactly when there is none |
| `MachinesAdc.GetEnvironmentNames` | pkg/registry/machines/netscaler/adc/registry.go:38-48 | one name per environment, in list order |
| `MachinesAdc.AgreesWithLegacyRegistry` | pkg/registry/machines/netscaler/adc/registry.go:29-48 | over the same environments, this registry and the legacy ADC registry find the same environment and list the same names; only the miss text differs |
| `MachinesNetScaler.GetAdcEnvironmentByName` | pkg/registry/machines/netscaler/registry.go:31-33 | the first ADC environment with the name, else the ADC registry's miss error |
| `MachinesNetScaler.GetAdcEnvironmentNames` | pkg/registry/machines/netscaler/registry.go:35-37 | the ADC environment names, in list order |
| `MachinesNetScaler.AdcQueriesDelegate` | pkg/registry/machines/netscaler/registry.go:26-37 | both queries answer exactly as the ADC registry does, and replacing the SDX registry changes neither answer |
| `AcmeVariable.NewAcmeVariable` | pkg/registry/acmeVariable.go:25-30 | the variable carries the given key and value; it is the zero variable exactly when both are empty |
| `AcmeVariable.VariableFormsParallel` | pkg/registry/acmeVariable.go:32-48 | the secure variable has the plain variable's fields, identically tagged, then the crypto parameters; the key is not sensitive and the value is |
| `AcmeVariable.DecryptVariable` | pkg/registry/acmeVariable.go:50-60 | the engine receives the base16 key text; on success the engine's variable is returned with no error, and on failure the zero variable is returned with the engine's error |
| `AcmeVariable.EngineKeyText` | pkg/registry/acmeVariable.go:55 | the key text is twice as long as the key, and two different keys give two different texts |
| `ProcessEnv.LastValue` | pkg/registry/acmeProvider.go:33-35 | the value a key ends up with is the value of its last occurrence in the list; there is none exactly when no variable has the key |
| `ProcessEnv.SetAll` | pkg/registry/certificates/acme/provider.go:33-45 | the sets succeed exactly when no Setenv is refused, and then each listed key holds its last value while other keys keep theirs; at the first refusal that error is returned, earlier sets persist and later variables are never set |
| `ProcessEnv.UnsetAll` | pkg/registry/certificates/acme/provider.go:54-66 | the unsets succeed exactly when no Unsetenv is refused, and then the listed keys are absent and other keys are unchanged; at the first refusal only the earlier keys are removed |
| `ProcessEnv.SetAllKeepsUnlisted` | pkg/registry/certificates/acme/provider.go:33-45 | a key that no variable carries keeps its value through the sets, whether they all succeed or one is refused part-way |
| `ProcessEnv.ResetUndoesAnyApply` | pkg/registry/certificates/acme/provider.go:33-66 | Reset does not depend on how far Apply got: after any apply, even one cut short by a refused Setenv, a successful reset leaves every listed key absent and every other key as it was before the apply |
| `AcmeProvider.ApplyEnvironmentVariables` | pkg/registry/acmeProvider.go:32-39 | every variable is set in list order and later duplicates win; the first Setenv refusal is returned at once, earlier sets persist and nothing is rolled back |
| `AcmeProvider.ResetEnvironmentVariables` | pkg/registry/acmeProvider.go:48-55 | every listed key is unset; on success the listed keys are absent whatever they held before and every other key is unchanged; the first refusal aborts, and only the earlier keys are removed |
| `AcmeProvider.DecryptedPrefix` | pkg/registry/acmeProvider.go:66-71 | the variables decrypted before the first decryption failure, each exactly the engine's output for the secure variable at the same position; the engine failed on the next one |
| `AcmeProvider.SecureSetAll` | pkg/registry/acmeProvider.go:66-79 | acts as the plain apply over the decrypted prefix; when that apply succeeds and a decryption failed, the result is the engine's error, with earlier sets kept and the failing variable not set |
| `AcmeProvider.SecureApplyEnvironmentVariables` | pkg/registry/acmeProvider.go:65-80 | the secure apply is the plain apply over the variables decrypted up to the first decryption failure, then that failure if every set before it succeeded |
| `AcmeProvider.SecureResetEnvironmentVariables` | pkg/registry/acmeProvider.go:93-100 | unsets the stored clear-text keys without decrypting; on success those keys are absent and every other key is unchanged; the first refusal aborts |
| `AcmeProvider.ApplyThenReset` | pkg/registry/acmeProvider.go:32-55 | a successful apply followed by a successful reset leaves every listed key absent, whether or not it existed before, and every other key as it was |
| `AcmeProvider.NoVariablesNoEffect` | pkg/registry/acmeProvider.go:32-55 | with no variables, all four operations succeed and leave the environment unchanged |
| `AcmeProvider.SecureResetMatchesPlain` | pkg/registry/acmeProvider.go:93-100 | the secure reset has the same effect as the plain reset over the same keys, so the engine plays no part |
| `AcmeProvider.SecureApplyThenReset` | pkg/registry/acmeProvider.go:65-100 | when decryption keeps each clear-text key, a successful secure apply followed by a successful secure reset leaves the stored keys absent and other keys as they were |
| `AcmeRegistry.GetProviderByName` | pkg/registry/acmeRegistry.go:29-36 | returns the first provider with the name; fails with the "acme provider" not-found error exactly when there is none |
| `AcmeRegistry.GetProviderNames` | pkg/registry/acmeRegistry.go:38-45 | one name per provider, in list order |
| `AcmeRegistry.GetServiceByName` | pkg/registry/acmeRegistry.go:47-54 | returns the first service with the name; fails with the "acme service" not-found error exactly when there is none |
| `AcmeRegistry.GetServiceNames` | pkg/registry/acmeRegistry.go:56-63 | one name per service, in list order |
| `AcmeRegistry.GetUserByName` | pkg/registry/acmeRegistry.go:72-79 | returns the first user with the name; fails with the "acme user" not-found error exactly when there is none |
| `AcmeRegistry.GetUserNames` | pkg/registry/acmeRegistry.go:81-88 | one name per user, in list order |
| `AcmeRegistry.GetSecureProviderByName` | pkg/registry/acmeRegistry.go:101-108 | the provider lookup over the secure providers, with the same miss error |
| `AcmeRegistry.GetSecureProviderNames` | pkg/registry/acmeRegistry.go:110-117 | one name per secure provider, in list order |
| `AcmeRegistry.GetSecureServiceByName` | pkg/registry/acmeRegistry.go:119-126 | the service lookup over the secure services, with the same miss error |
| `AcmeRegistry.GetSecureServiceNames` | pkg/registry/acmeRegistry.go:128-135 | one name per secure service, in list order |
| `AcmeRegistry.GetSecureUserByName` | pkg/registry/acmeRegistry.go:144-151 | the user lookup over the secure users, with the same miss error |
| `AcmeRegistry.GetSecureUserNames` | pkg/registry/acmeRegistry.go:153-160 | one name per secure user, in list order |
| `AcmeRegistry.LookupsReadOwnList` | pkg/registry/acmeRegistry.go:29-88 | each lookup reads only its own list; replacing the other two lists changes nothing |
| `AcmeRegistry.SecureProviderLookupMirrorsPlain` | pkg/registry/acmeRegistry.go:101-117 | secure providers whose names match the plain ones give the same lookup answers, the same miss error and the same names |
| `AcmeRegistry.ProviderMissText` | pkg/registry/acmeRegistry.go:35 | a provider miss reads "could not find acme provider <name>" |
| `Acme.GetProviderByName` | pkg/registry/acme/registry.go:31-38 | returns the first provider with the name; fails with "could not find provider <name>" exactly when there is none |
| `Acme.GetProviderNames` | pkg/registry/acme/registry.go:40-50 | one name per provider, in list order |
| `Acme.GetServiceByName` | pkg/registry/acme/registry.go:52-59 | returns the first service with the name; fails with "could not find service <name>" exactly when there is none |
| `Acme.GetServiceNames` | pkg/registry/acme/registry.go:61-71 | one name per service, in list order |
| `Acme.GetUserByName` | pkg/registry/acme/registry.go:80-87 | returns the first user with the name; fails with "could not find user <name>" exactly when there is none |
| `Acme.GetUserNames` | pkg/registry/acme/registry.go:89-99 | one name per user, in list order |
| `Acme.AgreesWithLegacyRegistry` | pkg/registry/acme/registry.go:31-99 | over the same lists, this registry and the legacy ACME registry find a provider for the same names, return the same provider, service and user whenever this one succeeds, and list the same provider names; both provider-miss texts start with "could not find " |
| `CertificateRegistry.GetPassphraseByName` | pkg/registry/certificateRegistry.go:28-35 | returns the first passphrase with the name; fails with the "passphrase" not-found error exactly when there is none |
| `CertificateRegistry.GetSecurePassphraseByName` | pkg/registry/certificateRegistry.go:62-69 | the same lookup over the secure passphrases, with the same miss error |
| `CertificateRegistry.AppendNames` | pkg/registry/certificateRegistry.go:39-41 | appending keeps the existing entries and adds one name per item after them, in list order |
| `CertificateRegistry.GetPassphraseNames` | pkg/registry/certificateRegistry.go:37-43 | as written: 2n entries for n passphrases, the first n empty and the last n the names in order |
| `CertificateRegistry.GetSecurePassphraseNames` | pkg/registry/certificateRegistry.go:71-77 | the same doubled shape over the secure passphrases |
| `CertificateRegistry.PassphraseNamesShape` | pkg/registry/certificateRegistry.go:37-43 | the as-written list is empty exactly when there are no passphrases, and otherwise contains "" |
| `CertificateRegistry.IntendedPassphraseNames` | pkg/registry/certificateRegistry.go:37-43 | the corrected list: one name per passphrase, in list order |
| `CertificateRegistry.IntendedPassphraseNamesAreFound` | pkg/registry/certificateRegistry.go:28-43 | every entry of the corrected list is found by the lookup, and the as-written list is n empty entries followed by the corrected list |
| `CertificateRegistry.PassphraseNamesCounterexample` | pkg/registry/certificateRegistry.go:38-41 | one passphrase called "key" gives ["", "key"] rather than ["key"], and looking up the first entry fails |
| `Certificates.GetPassphraseByName` | pkg/registry/certificates/registry.go:32-39 | returns the first passphrase with the name; fails with "could not find passphrase <name>" exactly when there is none |
| `Certificates.GetPassphraseNames` | pkg/registry/certificates/registry.go:41-47 | as written: n empty entries, then the n names in list order |
| `Certificates.IntendedPassphraseNames` | pkg/registry/certificates/registry.go:41-47 | the corrected list: one name per passphrase, in order, each found by the lookup |
| `Certificates.PassphraseNamesCounterexample` | pkg/registry/certificates/registry.go:42-45 | two passphrases give four entries, two of them empty, rather than the two names |
| `Certificates.PassphrasesIgnoreAcme` | pkg/registry/certificates/registry.go:27-47 | neither the lookup nor the name list consults the ACME registry |
| `Certificates.NamesMatchLegacy` | pkg/registry/certificates/registry.go:41-47 | the name list matches the legacy registry's list, entry for entry |
| `MailRegistry.NewMailRegistry` | pkg/registry/mailRegistry.go:23-27 | the new registry has no SMTP servers |
| `MailRegistry.GetSmtpServerByName` | pkg/registry/mailRegistry.go:33-40 | returns the first server with the name; fails with the "smtp server" not-found error exactly when there is none |
| `MailRegistry.GetSecureSmtpServerByName` | pkg/registry/mailRegistry.go:58-65 | the first secure server whose stored (encrypted) name equals the argument as given, with the same miss error |
| `MailRegistry.NewMailRegistryFindsNothing` | pkg/registry/mailRegistry.go:23-40 | a new mail registry fails every lookup with "could not find smtp server <name>" |
| `MailRegistry.ServerNameIsSensitive` | pkg/registry/smtpServer.go:21-26 | unlike other entities, an SMTP server's name is tagged sensitive, as are all its fields |
| `Registry.NewEmptyRegistry` | pkg/registry/registry.go:21-25 | the empty registry holds exactly one organization, with the empty name |
| `Registry.GetOrganizationByName` | pkg/registry/registry.go:118-125 | returns the first organization with the name; fails with the "organization" not-found error exactly when there is none |
| `Registry.GetOrganizationNames` | pkg/registry/registry.go:127-134 | one name per organization, in list order, with no sorting or deduplication |
| `Registry.GetSecureOrganizationByName` | pkg/registry/registry.go:152-159 | the same lookup over the secure organizations, with the same miss error |
| `Registry.GetSecureOrganizationNames` | pkg/registry/registry.go:161-168 | one name per secure organization, in list order |
| `Registry.OrganizationNamesAreFound` | pkg/registry/registry.go:118-134 | a lookup succeeds exactly for listed names, and the i-th listed name finds the first organization with that name, at or before position i |
| `Registry.EmptyRegistryLookups` | pkg/registry/registry.go:21-25 | the empty registry finds an organization exactly for the empty name, and lists only that name |
| `Registry.SecureLookupMirrorsPlain` | pkg/registry/registry.go:152-168 | secure organizations whose names match the plain ones give the same lookup answers, the same miss error and the same names |
| `Registry.NewExampleRegistry` | pkg/registry/registry.go:27-112 | the example registry holds one organization, called "organization name" |
| `Registry.ExampleRegistryResolves` | pkg/registry/registry.go:27-47 | in the example registry, "organization name" is found; its single ADC environment has a management node and one peer, GetNodes lists the peer then the management node, and the environment is found by its name |

## Left out

- Device clients. The client library's `NewClient` and `IsPrimaryNode` are
  the two functions of `AdcEnvironment.DeviceApi`, whose outcome depends
  only on their arguments. A live device could answer two queries about the
  same node differently; the model cannot. The SSH password
  configuration, with its host-key callback, is the `passwordKey` parameter
  of `GetNodeScpClient`. Networking and SSH themselves are not modelled.
- `AdcEnvironment.GetPrimaryClient`: the source tests the management client
  for `nil` rather than testing its error. The model assumes the factory
  returns a non-nil client exactly when it reports no error.
- Connection settings are passed through unchanged to the client factory.
  The field-by-field copy into the client library's settings type is not
  modelled.
- The transform engine is an opaque function from (base16 key text, secure
  value) to a result. Encryption round trips belong to the engine and are
  not stated. The engine is typed to return the plain type, so the panic
  of the unchecked type assertion in `Decrypt` (an engine returning some
  other type) is not modelled.
- `os.Setenv` and `os.Unsetenv` are fault oracles whose outcome depends only
  on their arguments. Process-global concurrency is not modelled.
- The debug logging in the `certificates/acme` provider has no effect on
  results and is not modelled.
- The json, yaml and mapstructure serialisation tags, and configuration
  loading, are not modelled. The `secure` tags are kept as field tags for
  the node, the variable and the SMTP server.
- `GetTransformConfig` and `GetCryptoParams` are repeated on every type.
  `Transform.ConfigFor` and the `cryptoParams` field of each secure
  datatype model them once; the accessors are plain field reads.
- The `Decrypt` methods of credential, service, user, external account
  binding and passphrase follow the same pattern as the node and variable
  ones, and nothing in the modelled core uses their output. Only the node
  and variable versions are modelled.
- The declarations that have no behaviour (organization, organization
  registry, machines registries, SDX registries, settings, SMTP
  authentication, external account binding) are plain datatypes.
- `NewOrganization` is not part of this model. `Registry.NewOrganization`
  assumes it sets only the name and leaves the organization's registry
  empty. `Registry.NewEmptyRegistry` states only what holds under any
  choice: one organization, with the empty name.
- `NewNetScalerRegistry`, `NewNetScalerAdcRegistry` and
  `NewNetScalerSdxRegistry` are not part of this model. Only their types
  appear.
- Plain and secure forms are structurally parallel as a compile-time fact
  of the external library. It is stated only through transcribed tag
  tables (`AdcNode.NodeFields`, `AcmeVariable.VariableFields`,
  `MailRegistry.SmtpServerFields`). These tables are copied from the Go
  struct tags, and nothing in Dafny ties them to the datatypes' fields.
  `AdcNode.NodeFormsParallel`, `AcmeVariable.VariableFormsParallel` and
  `MailRegistry.ServerNameIsSensitive` are facts about these tables.
- The `certificates/acme` package's `Registry` is not part of this model.
  `Certificates.Registry` takes its type as a parameter, because neither
  the passphrase lookup nor the name list reads it.
- Go's `int` for the SMTP port and the settings timeout is unbounded here.
  No arithmetic is done on either.

## Findings

| source | as written | input that shows it | evidently intended | confidence | as-written member | corrected member |
|---|---|---|---|---|---|---|
| pkg/registry/certificateRegistry.go:37-43 | the name list is allocated with `make` at length n, and then each name is appended after those n empty entries | one passphrase called "key" gives ["", "key"] | one entry per passphrase, in order: ["key"] | not executed; high | `CertificateRegistry.GetPassphraseNames`, `CertificateRegistry.PassphraseNamesCounterexample` | `CertificateRegistry.IntendedPassphraseNames` |
| pkg/registry/certificates/registry.go:41-47 | the same `make` at length n followed by `append` | passphrases "a" and "b" give ["", "", "a", "b"] | ["a", "b"] | not executed; high | `Certificates.GetPassphraseNames`, `Certificates.PassphraseNamesCounterexample` | `Certificates.IntendedPassphraseNames` |

The as-written lists are kept for the two `GetPassphraseNames` functions,
because that is what callers receive. The corrected lists are the name
lists in the sense every other level uses: each entry is found by the
lookup. The secure certificate registry's name list has the same doubled
shape.
