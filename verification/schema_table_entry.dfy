/** The seed cache's key: a value-based pair of a database schema and a table. */
module SchemaTableEntries {

  /** A record of two strings; being a Dafny datatype it is immutable and compared by value. */
  datatype SchemaTableEntry = SchemaTableEntry(schema: string, table: string)

  /** The accessors give back exactly what the entry was built from. */
  lemma AccessorsReturnComponents(schema: string, table: string)
    ensures SchemaTableEntry(schema, table).schema == schema
    ensures SchemaTableEntry(schema, table).table == table
  {
  }

  /** Two entries are equal exactly when both components are. */
  lemma EqualIffComponentsEqual(a: SchemaTableEntry, b: SchemaTableEntry)
    ensures a == b <==> a.schema == b.schema && a.table == b.table
  {
  }

  /** The dotted name `schema.table` as a reader writes it, without quoting; generated
      SQL quotes each of the two names on its own instead. */
  function QualifiedName(e: SchemaTableEntry): string {
    e.schema + "." + e.table
  }

  /** The key is a pair and not the qualified name: two different entries can share a
      qualified name, so a cache keyed by the name would confuse them. */
  lemma KeyIsPairNotQualifiedName()
    ensures SchemaTableEntry("a.b", "c") != SchemaTableEntry("a", "b.c")
    ensures QualifiedName(SchemaTableEntry("a.b", "c")) == QualifiedName(SchemaTableEntry("a", "b.c"))
  {
  }
}
