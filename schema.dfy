/**
 * The shape of an input contract: the canonical field names a tool declares
 * and the table of alternative names it also accepts.
 */
module Schema {

  /** The language code the tools that take one assume when it is left out. */
  const DefaultLanguage := "en"

  datatype Contract = Contract(fields: set<string>, aliases: map<string, string>) {

    /** Every alias names a declared field, and no alias hides a declared field. */
    predicate WellFormed() {
      aliases.Values <= fields && aliases.Keys !! fields
    }

    /** The field a key stands for: its alias target, or the key itself. */
    function Canonical(key: string): (r: string)
      ensures key in fields && WellFormed() ==> r == key
      ensures key in aliases ==> r == aliases[key]
      ensures WellFormed() && (key in fields || key in aliases) ==> r in fields
    {
      if key in aliases then aliases[key] else key
    }
  }
}
