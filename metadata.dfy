/** The extra information a todo can carry (lib/hooks/useMetadata.ts): a phone number, a link,
    an address or a note, each with an optional label. */
module Metadata {
  import opened Wrappers

  datatype MetadataType = Phone | Link | Address | Note

  /** The type as the store and the components spell it. */
  function TypeName(k: MetadataType): string {
    match k
    case Phone => "phone"
    case Link => "link"
    case Address => "address"
    case Note => "note"
  }

  /** The type a name spells, if any. */
  function TypeOfName(s: string): Option<MetadataType> {
    if s == "phone" then Some(Phone)
    else if s == "link" then Some(Link)
    else if s == "address" then Some(Address)
    else if s == "note" then Some(Note)
    else None
  }

  /** The names and the types correspond one to one. */
  lemma TypeNameRoundTrip(k: MetadataType, s: string)
    ensures TypeOfName(TypeName(k)) == Some(k)
    ensures TypeOfName(s).Some? ==> TypeName(TypeOfName(s).value) == s
  {
  }

  /** A row; `labelText` is the `label` column, `None` for `null`. */
  datatype TodoMetadata = TodoMetadata(id: string, todoId: string, kind: MetadataType,
                                       labelText: Option<string>, value: string, createdAt: string)
}
