/** The three path-segment validators declared as constants of the mapper
    (ID_FORMAT_REGEX, ID_OR_SCHEMA_FORMAT_REGEX and PAPER_TYPES). The router
    applies each of them to a whole segment, so they are written here as
    predicates on the complete segment text rather than as regular expressions. */
module Validators {

  /** Ruby's `\w` without the Unicode flag: an ASCII letter, an ASCII digit or `_`. */
  predicate IsWordChar(c: char) {
    ('a' <= c <= 'z') || ('A' <= c <= 'Z') || ('0' <= c <= '9') || c == '_'
  }

  predicate AllWordChars(s: string) {
    forall i :: 0 <= i < |s| ==> IsWordChar(s[i])
  }

  /** ID_FORMAT_REGEX, `\w{8}`, matched against a whole segment. */
  predicate IsId(s: string) {
    |s| == 8 && AllWordChars(s)
  }

  const SchemaPrefix: string := "schema/"

  /** The second alternative of ID_OR_SCHEMA_FORMAT_REGEX, `schema\/\w+`. */
  predicate IsSchemaName(s: string) {
    |s| > |SchemaPrefix| && s[..|SchemaPrefix|] == SchemaPrefix && AllWordChars(s[|SchemaPrefix|..])
  }

  /** ID_OR_SCHEMA_FORMAT_REGEX, `\w{8}|schema\/\w+`, matched against a whole segment. */
  predicate IsIdOrSchema(s: string) {
    IsId(s) || IsSchemaName(s)
  }

  /** PAPER_TYPES, in the order the source lists them. */
  const PaperTypes: seq<string> :=
    ["statutory-instruments", "proposed-negative-statutory-instruments", "treaties"]

  /** `PAPER_TYPES.include?(value)`: exact, case-sensitive membership. */
  predicate IsPaperType(s: string) {
    s in PaperTypes
  }

  /** The two alternatives of the id-or-schema validator never overlap: a
      schema name holds a `/`, which is not a word character. */
  lemma SchemaNameIsNotId(s: string)
    requires IsSchemaName(s)
    ensures !IsId(s)
    ensures IsIdOrSchema(s)
  {
    assert s[6] == s[..|SchemaPrefix|][6] == '/';
    assert !IsWordChar(s[6]);
  }

  /** A segment the id-or-schema validator accepts has exactly one of the two
      forms. */
  lemma IdOrSchemaCases(s: string)
    ensures IsIdOrSchema(s) <==> (IsId(s) && !IsSchemaName(s)) || (IsSchemaName(s) && !IsId(s))
  {
    if IsSchemaName(s) {
      SchemaNameIsNotId(s);
    }
  }

  /** The paper-type set has exactly three members, each distinct; membership
      is exact, so a case variant or a proper part of a slug is refused. */
  lemma PaperTypesExact(s: string)
    ensures |PaperTypes| == 3
    ensures IsPaperType(s) <==> s == "statutory-instruments" || s == "proposed-negative-statutory-instruments" || s == "treaties"
    ensures !IsPaperType("Treaties") && !IsPaperType("statutory-instrument") && !IsPaperType("negative-statutory-instruments")
  {
  }
}
