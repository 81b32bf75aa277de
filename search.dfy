/** The two filter tests the dashboard pages share: a select whose value
    "all" lets everything through, and a case-insensitive substring search
    (`text.toLowerCase().includes(query.toLowerCase())`). */
module Search {
  import opened JsText

  const All: string := "all"

  /** `filter === 'all' || value === filter`. */
  predicate Selected(filter: string, value: string)
  {
    filter == All || value == filter
  }

  /** The search test on one field. */
  predicate Mentions(text: string, query: string)
  {
    Contains(ToLower(text), ToLower(query))
  }

  /** The empty query is mentioned by every text. */
  lemma MentionsEmpty(text: string)
    ensures Mentions(text, "")
  {
    assert ToLower("") == "";
    ContainsEmpty(ToLower(text));
  }

  /** The search ignores the case of the query and of the text. */
  lemma MentionsIgnoresCase(text: string, query: string)
    ensures Mentions(text, ToUpper(query)) == Mentions(text, query)
    ensures Mentions(text, ToLower(query)) == Mentions(text, query)
    ensures Mentions(ToUpper(text), query) == Mentions(text, query)
  {
    LowerOfUpper(query);
    LowerTwice(query);
    LowerOfUpper(text);
  }
}
