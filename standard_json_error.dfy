/**
 * The `solc --standard-json` output error record, the four canned warnings the
 * compiler emits, and appending a contract path to a record's formatted text.
 *
 * Parsing a source location string is done by a parser outside this model; it
 * is the parameter `parse`, which yields `Err` where the parser fails.
 */
module StandardJsonError {
  import opened Wrappers
  import opened Text

  /** A source range in the standard-JSON form: file, start and end offsets. */
  datatype SourceLocation = SourceLocation(file: string, start: int, end: int)

  /** The `solc --standard-json` output error. */
  datatype Error = Error(
    component: string,
    errorCode: Option<string>,
    formattedMessage: string,
    message: string,
    severity: string,
    sourceLocation: Option<SourceLocation>,
    errorType: string)

  /** The opening of every canned warning text. */
  const WarningPrefix: string := "\nWarning: "

  const EcrecoverMessage: string :=
    WarningPrefix + ("It looks like you are using 'ecrecover' to validate a signature of a user account.\n"
      + "Polkadot comes with native account abstraction support, therefore it is highly recommended NOT\n"
      + "to rely on the fact that the account has an ECDSA private key attached to it since accounts might\n"
      + "implement other signature schemes.\n")

  const SendAndTransferMessage: string :=
    WarningPrefix + ("It looks like you are using '<address payable>.send/transfer(<X>)'.\n"
      + "Using '<address payable>.send/transfer(<X>)' is deprecated and strongly discouraged!\n"
      + "The resolc compiler uses a heuristic to detect '<address payable>.send/transfer(<X>)' calls,\n"
      + "which disables call re-entrancy and supplies all remaining gas instead of the 2300 gas stipend.\n"
      + "However, detection is not guaranteed. You are advised to carefully test this, employ\n"
      + "re-entrancy guards or use the withdrawal pattern instead!\n"
      + "Learn more on https://docs.soliditylang.org/en/latest/security-considerations.html#reentrancy\n"
      + "and https://docs.soliditylang.org/en/latest/common-patterns.html#withdrawal-from-contracts\n")

  const ExtcodesizeMessage: string :=
    WarningPrefix + ("Your code or one of its dependencies uses the 'extcodesize' instruction, which is\n"
      + "usually needed in the following cases:\n"
      + "  1. To detect whether an address belongs to a smart contract.\n"
      + "  2. To detect whether the deploy code execution has finished.\n"
      + "Polkadot comes with native account abstraction support (so smart contracts are just accounts\n"
      + "coverned by code), and you should avoid differentiating between contracts and non-contract\n"
      + "addresses.\n")

  const TxOriginMessage: string :=
    WarningPrefix + ("You are checking for 'tx.origin' in your code, which might lead to unexpected behavior.\n"
      + "Polkadot comes with native account abstraction support, and therefore the initiator of a\n"
      + "transaction might be different from the contract calling your code. It is highly recommended NOT\n"
      + "to rely on tx.origin, but use msg.sender instead.\n")

  lemma StartsWithOwnPrefix(prefix: string, rest: string)
    ensures StartsWith(prefix + rest, prefix)
  {
    assert (prefix + rest)[..|prefix|] == prefix;
  }

  /** The fixed fields every canned warning carries. */
  predicate IsCannedWarning(e: Error)
  {
    && e.component == "general"
    && e.errorCode == None
    && e.severity == "warning"
    && e.errorType == "Warning"
    && e.formattedMessage == e.message
    && StartsWith(e.message, WarningPrefix)
  }

  /**
   * The location of an optional source string: none without one, and none
   * (not an error) when the parser rejects it.
   */
  function ParseLocation(src: Option<string>, parse: string -> Result<SourceLocation>): (r: Option<SourceLocation>)
    ensures src.None? ==> r.None?
    ensures src.Some? && parse(src.value).Err? ==> r.None?
    ensures src.Some? && parse(src.value).Ok? ==> r == Some(parse(src.value).value)
  {
    match src
    case None => None
    case Some(text) =>
      match parse(text)
      case Ok(location) => Some(location)
      case Err(_) => None
  }

  /** A canned warning record with the given text. */
  function Warning(message: string, src: Option<string>, parse: string -> Result<SourceLocation>): Error
  {
    Error(
      component := "general",
      errorCode := None,
      formattedMessage := message,
      message := message,
      severity := "warning",
      sourceLocation := ParseLocation(src, parse),
      errorType := "Warning")
  }

  /** The warning against relying on `ecrecover` for account signatures. */
  function MessageEcrecover(src: Option<string>, parse: string -> Result<SourceLocation>): (e: Error)
    ensures IsCannedWarning(e)
    ensures e.message == EcrecoverMessage
    ensures e.sourceLocation == ParseLocation(src, parse)
  {
    StartsWithOwnPrefix(WarningPrefix, EcrecoverMessage[|WarningPrefix|..]);
    Warning(EcrecoverMessage, src, parse)
  }

  /** The warning about `<address payable>.send/transfer` calls. */
  function MessageSendAndTransfer(src: Option<string>, parse: string -> Result<SourceLocation>): (e: Error)
    ensures IsCannedWarning(e)
    ensures e.message == SendAndTransferMessage
    ensures e.sourceLocation == ParseLocation(src, parse)
  {
    StartsWithOwnPrefix(WarningPrefix, SendAndTransferMessage[|WarningPrefix|..]);
    Warning(SendAndTransferMessage, src, parse)
  }

  /** The warning about the `extcodesize` instruction. */
  function MessageExtcodesize(src: Option<string>, parse: string -> Result<SourceLocation>): (e: Error)
    ensures IsCannedWarning(e)
    ensures e.message == ExtcodesizeMessage
    ensures e.sourceLocation == ParseLocation(src, parse)
  {
    StartsWithOwnPrefix(WarningPrefix, ExtcodesizeMessage[|WarningPrefix|..]);
    Warning(ExtcodesizeMessage, src, parse)
  }

  /** The warning about checking `tx.origin`. */
  function MessageTxOrigin(src: Option<string>, parse: string -> Result<SourceLocation>): (e: Error)
    ensures IsCannedWarning(e)
    ensures e.message == TxOriginMessage
    ensures e.sourceLocation == ParseLocation(src, parse)
  {
    StartsWithOwnPrefix(WarningPrefix, TxOriginMessage[|WarningPrefix|..]);
    Warning(TxOriginMessage, src, parse)
  }

  /** The suffix that names a contract path on its own line. */
  function ContractPathSuffix(path: string): string
  {
    "\n--> " + path + "\n"
  }

  /**
   * The record with the contract path appended to its formatted text, which
   * keeps the old text as its prefix; every other field is unchanged.
   */
  function PushContractPath(e: Error, path: string): (r: Error)
    ensures r.formattedMessage == e.formattedMessage + ContractPathSuffix(path)
    ensures r.formattedMessage[..|e.formattedMessage|] == e.formattedMessage
    ensures r.message == e.message && r.component == e.component && r.errorCode == e.errorCode
    ensures r.severity == e.severity && r.sourceLocation == e.sourceLocation && r.errorType == e.errorType
  {
    e.(formattedMessage := e.formattedMessage + ContractPathSuffix(path))
  }

  /** The rendered record: exactly its formatted text. */
  function Display(e: Error): (s: string)
    ensures s == e.formattedMessage
  {
    e.formattedMessage
  }

  /**
   * A canned warning renders as its plain message; once a contract path is
   * pushed it renders as that message followed by the path line.
   */
  lemma DisplayOfCannedWarning(e: Error, path: string)
    requires IsCannedWarning(e)
    ensures Display(e) == e.message
    ensures Display(PushContractPath(e, path)) == e.message + ContractPathSuffix(path)
    ensures StartsWith(Display(PushContractPath(e, path)), WarningPrefix)
  {
    assert (e.message + ContractPathSuffix(path))[..|WarningPrefix|] == e.message[..|WarningPrefix|];
  }

  /**
   * Pushing two paths in turn appends both path lines in that order; the
   * record is classified as it was before.
   */
  lemma PushContractPathTwice(e: Error, first: string, second: string)
    ensures Display(PushContractPath(PushContractPath(e, first), second))
            == Display(e) + ContractPathSuffix(first) + ContractPathSuffix(second)
    ensures PushContractPath(PushContractPath(e, first), second).message == e.message
  {
  }
}
