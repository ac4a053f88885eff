/** Lines as the parsers see them: fields separated by white space. */
module Tokens {
  import opened Common
  import opened Assign

  /** A field. A printed prefix and a quoted name have one canonical spelling each. */
  datatype Token = Word(text: string) | Cidr(block: Block) | Quoted(name: string)

  type Line = seq<Token>

  /** Fields as bare text. */
  type Fields = seq<string>

  /** The field that follows the first occurrence of key which anything follows. */
  function FieldAfter<T(==)>(fields: seq<T>, key: T): Option<T> {
    if |fields| < 2 then None
    else if fields[0] == key then Some(fields[1])
    else FieldAfter(fields[1..], key)
  }

  function FirstOf<T(==)>(fields: seq<T>, a: T, b: T): Option<T> {
    var v := FieldAfter(fields, a);
    if v.Some? then v else FieldAfter(fields, b)
  }

  /** The first field that is one of the verbs. */
  function VerbOf(fields: Line, verbs: set<string>): Option<string> {
    if fields == [] then None
    else if fields[0].Word? && fields[0].text in verbs then Some(fields[0].text)
    else VerbOf(fields[1..], verbs)
  }

  /** A field without the quotes around it; nothing is left of an empty name. */
  function Unquoted(field: Option<Token>): Option<Token> {
    match field
    case Some(Quoted(name)) => if name == "" then None else Some(Word(name))
    case _ => field
  }

  /** Everything before the first field "comment" that has a successor. */
  function CutComment(fields: Line): Line {
    if |fields| < 2 then fields
    else if fields[0] == Word("comment") then []
    else [fields[0]] + CutComment(fields[1..])
  }

  /** What FieldAfter gives when nothing follows. */
  function TextOf(field: Option<string>): string {
    match field
    case None => ""
    case Some(s) => s
  }

  lemma {:induction false} NoFieldAfter<T>(fields: seq<T>, key: T)
    requires key !in fields
    ensures FieldAfter(fields, key) == None
  {
    if |fields| >= 2 {
      NoFieldAfter(fields[1..], key);
    }
  }

  lemma {:induction false} FieldAt<T>(fields: seq<T>, key: T, i: nat)
    requires i + 1 < |fields| && fields[i] == key
    requires forall k :: 0 <= k < i ==> fields[k] != key
    ensures FieldAfter(fields, key) == Some(fields[i + 1])
  {
    if i > 0 {
      FieldAt(fields[1..], key, i - 1);
    }
  }

  lemma {:induction false} CutAtComment(before: Line, comment: Line)
    requires Word("comment") !in before && comment != []
    ensures CutComment(before + [Word("comment")] + comment) == before
  {
    var all := before + [Word("comment")] + comment;
    if before != [] {
      assert all[0] == before[0] && all[1..] == before[1..] + [Word("comment")] + comment;
      CutAtComment(before[1..], comment);
    }
  }
}
