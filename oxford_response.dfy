/** The shape of the Oxford Dictionaries API response that the bot reads.

    Every field is optional (`None` is a property that is `undefined`), and
    every list is taken as given: the API may omit any field at any level. */
module OxfordResponse {
  import opened Wrappers

  datatype Response = Response(results: Option<seq<HeadwordEntry>>)

  datatype HeadwordEntry = HeadwordEntry(
    word: Option<string>,
    lexicalEntries: Option<seq<LexicalEntry>>)

  datatype LexicalEntry = LexicalEntry(
    lexicalCategory: Option<string>,
    entries: Option<seq<Entry>>,
    pronunciations: Option<seq<Pronunciation>>)

  datatype Entry = Entry(senses: Option<seq<Sense>>)

  datatype Sense = Sense(definitions: Option<seq<string>>)

  datatype Pronunciation = Pronunciation(audioFile: Option<string>)

  /** The flat object both revisions build from a definitions response.
      A `None` field is a property whose value is `undefined`. */
  datatype WordObject = WordObject(
    word: Option<string>,
    category: Option<string>,
    definition: Option<string>)

  /** One `[0]` step of a lodash `_.get` path: undefined when the list is
      absent or empty. */
  function First<T>(xs: Option<seq<T>>): (r: Option<T>)
    ensures r.Some? <==> xs.Some? && |xs.value| > 0
    ensures r.Some? ==> r.value == xs.value[0]
  {
    if xs.Some? && |xs.value| > 0 then Some(xs.value[0]) else None
  }

  /** `_.get(res, 'results[0].lexicalEntries[0]')`. */
  function FirstLexicalEntry(res: Response): Option<LexicalEntry> {
    match First(res.results)
    case None => None
    case Some(result) => First(result.lexicalEntries)
  }

  /** `lexicalEntry.entries[0].senses[0].definitions[0]` evaluates without a
      TypeError: `entries[0]` and `senses[0]` exist and `definitions` is present
      (an empty `definitions` only makes the value undefined). */
  predicate DefinitionReadable(le: LexicalEntry) {
    && le.entries.Some? && |le.entries.value| > 0
    && le.entries.value[0].senses.Some? && |le.entries.value[0].senses.value| > 0
    && le.entries.value[0].senses.value[0].definitions.Some?
  }

  /** The value of `lexicalEntry.entries[0].senses[0].definitions[0]`. */
  function FirstDefinition(le: LexicalEntry): Option<string>
    requires DefinitionReadable(le)
  {
    First(le.entries.value[0].senses.value[0].definitions)
  }
}
