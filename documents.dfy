/** The query document of a GraphQL request, and the string sent for it. */
module Documents {

  /** A document is either a raw query string or a parsed syntax tree of type `A`. */
  datatype Document<A> = Text(query: string) | Tree(ast: A)

  /** The `query` field of the wire payload. A string document is sent as it is, with
      no check of its grammar; a syntax tree goes through the GraphQL printer, which
      is an outside library and is therefore a parameter here. */
  function Serialize<A>(doc: Document<A>, printer: A -> string): (q: string)
    ensures doc.Text? ==> q == doc.query
    ensures doc.Tree? ==> q == printer(doc.ast)
  {
    match doc
    case Text(s) => s
    case Tree(a) => printer(a)
  }

  /** A string and a tree that prints to that string are sent as the same query,
      whatever the printer does with other trees. */
  lemma SerializeAgreesAcrossForms<A>(a: A, s: string, printer: A -> string)
    requires printer(a) == s
    ensures Serialize(Tree(a), printer) == Serialize(Text(s), printer)
  {
  }
}
