/**
  The registry's error values: the typed "item not found" error shared by every
  name lookup of the registry package, and the formatted errors the resolver and
  the newer sub-packages build with `fmt.Errorf`.
 */
module Errors {

  /** The fixed message every item-not-found error starts with. */
  const ErrItemNotFoundMessage: string := "could not find"

  /** A failed name lookup: which kind of item, which name, and the fixed message. */
  datatype ItemNotFoundError = ItemNotFoundError(itemType: string, name: string, message: string)

  /** Builds the error reported when no item of `itemType` is called `name`. */
  function NewItemNotFoundError(itemType: string, name: string): (e: ItemNotFoundError)
    ensures e.itemType == itemType && e.name == name
    ensures e.message == ErrItemNotFoundMessage
  {
    ItemNotFoundError(itemType, name, ErrItemNotFoundMessage)
  }

  /** The text of an item-not-found error: message, type and name separated by single spaces. */
  function NotFoundText(e: ItemNotFoundError): string
  {
    e.message + " " + e.itemType + " " + e.name
  }

  /**
    Every error value the model produces.
    - NotFound: the registry's typed lookup error.
    - Text: an `fmt.Errorf` whose arguments are only `%s` strings.
    - Wrapped: an `fmt.Errorf` ending in `%w`; its text is `prefix` followed by the cause's text.
    - Foreign: an error produced by a collaborator outside the model (device client,
      SSH configuration, decrypter, environment syscalls).
   */
  datatype Error =
    | NotFound(notFound: ItemNotFoundError)
    | Text(text: string)
    | Wrapped(prefix: string, cause: Error)
    | Foreign(detail: string)

  /** The string Go's `Error()` method returns for `e`. */
  function Message(e: Error): string
  {
    match e
    case NotFound(nf) => NotFoundText(nf)
    case Text(t) => t
    case Wrapped(p, c) => p + Message(c)
    case Foreign(d) => d
  }

  /** Every error built by NewItemNotFoundError reads "could not find " followed by the type and name. */
  lemma NotFoundTextShape(itemType: string, name: string)
    ensures var t := NotFoundText(NewItemNotFoundError(itemType, name));
            && |t| == |ErrItemNotFoundMessage| + 1 + |itemType| + 1 + |name|
            && t[..|ErrItemNotFoundMessage| + 1] == "could not find "
            && t[|ErrItemNotFoundMessage| + 1..|ErrItemNotFoundMessage| + 1 + |itemType|] == itemType
            && t[|ErrItemNotFoundMessage| + 1 + |itemType| + 1..] == name
  {
    var t := NotFoundText(NewItemNotFoundError(itemType, name));
    var p := ErrItemNotFoundMessage + " ";
    assert t == p + itemType + " " + name;
    assert t[..|p|] == p;
    assert t[|p|..|p| + |itemType|] == itemType;
    assert t[|p| + |itemType| + 1..] == name;
  }

  /** For a fixed item type the rendering is injective in the name: distinct names give distinct texts. */
  lemma NotFoundTextInjective(itemType: string, name1: string, name2: string)
    ensures NotFoundText(NewItemNotFoundError(itemType, name1)) == NotFoundText(NewItemNotFoundError(itemType, name2))
            ==> name1 == name2
  {
    NotFoundTextShape(itemType, name1);
    NotFoundTextShape(itemType, name2);
  }
}
