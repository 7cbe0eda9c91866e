/**
  The mail registry: SMTP servers looked up by name. Unlike every other entity,
  an SMTP server's name is itself an encrypted field, so the secure lookup
  compares the stored ciphertext name with the argument as it is.
 */
module MailRegistry {
  import opened Wrappers
  import opened Errors
  import opened Transform
  import opened NameIndex

  /** How to log in to an SMTP server. */
  datatype SmtpAuthentication = SmtpAuthentication(username: string, password: string, authenticationType: string)

  /** The encrypted twin of an SMTP login. */
  datatype SecureSmtpAuthentication =
    SecureSmtpAuthentication(username: string, password: string, authenticationType: string, cryptoParams: CryptoParams)

  /** An outgoing mail server. */
  datatype SmtpServer = SmtpServer(name: string, address: string, port: int, authentication: SmtpAuthentication)

  /** The encrypted twin of a mail server: every field, the name included, holds ciphertext. */
  datatype SecureSmtpServer = SecureSmtpServer(
    name: string,
    address: string,
    port: int,
    authentication: SecureSmtpAuthentication,
    cryptoParams: CryptoParams)

  function ServerName(s: SmtpServer): string { s.name }

  function SecureServerName(s: SecureSmtpServer): string { s.name }

  /** The field tags of an SMTP server: all four fields are encrypted. */
  const SmtpServerFields: seq<FieldTag> :=
    [FieldTag("name", true), FieldTag("address", true), FieldTag("port", true), FieldTag("authentication", true)]

  /** The mail registry. */
  datatype MailRegistry = MailRegistry(smtpServers: seq<SmtpServer>)

  /** Its encrypted twin. */
  datatype SecureMailRegistry = SecureMailRegistry(smtpServers: seq<SecureSmtpServer>, cryptoParams: CryptoParams)

  function ServerMissing(name: string): Error { NotFound(NewItemNotFoundError("smtp server", name)) }

  /** A mail registry with no SMTP servers. */
  function NewMailRegistry(): (r: MailRegistry)
    ensures |r.smtpServers| == 0
  {
    MailRegistry([])
  }

  /** The first server called `name`; an "smtp server" not-found error exactly when there is none. */
  function GetSmtpServerByName(r: MailRegistry, name: string): (res: Result<SmtpServer, Error>)
    ensures IsLookup(r.smtpServers, ServerName, name, ServerMissing(name), res)
  {
    FindByName(r.smtpServers, ServerName, name, ServerMissing(name))
  }

  /**
    The first secure server whose stored name equals `name` as given: the
    argument is compared with the ciphertext, never decrypted.
   */
  function GetSecureSmtpServerByName(r: SecureMailRegistry, name: string): (res: Result<SecureSmtpServer, Error>)
    ensures IsLookup(r.smtpServers, SecureServerName, name, ServerMissing(name), res)
  {
    FindByName(r.smtpServers, SecureServerName, name, ServerMissing(name))
  }

  /** A new mail registry finds no server, whatever the name. */
  lemma NewMailRegistryFindsNothing(name: string)
    ensures GetSmtpServerByName(NewMailRegistry(), name) == Failure(ServerMissing(name))
    ensures Message(GetSmtpServerByName(NewMailRegistry(), name).error) == "could not find smtp server " + name
  {
  }

  /** The server name is a sensitive field, unlike the names of every other entity. */
  lemma ServerNameIsSensitive()
    ensures SmtpServerFields[0] == FieldTag("name", true)
    ensures forall f :: f in SmtpServerFields ==> f.sensitive
  {
  }
}
