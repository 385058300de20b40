/** The answer-reading rules shared by the exercise and nutrition reviews'
    `parseAnswer`: the summary falls back to the raw answer, every other
    field falls back to `null`, and a text that is not JSON keeps only the
    raw answer. */
module ReviewParsing {
  import opened Wrappers
  import opened Text
  import opened Json

  /** `root.path(key)` is a JSON null or absent. */
  predicate Absent(root: JsonNode, key: string) {
    Path(root, key).JNull? || Path(root, key).Missing?
  }

  /** The summary: `root.path("summary").asText(answer)` when the answer
      parses, the answer itself when `readTree` throws. */
  function SummaryOf(answer: string, tree: ReadTree): (s: string)
    ensures tree.Unparsable? ==> s == answer
    ensures tree.Parsed? && Absent(tree.root, "summary") ==> s == answer
    ensures tree.Parsed? && !Absent(tree.root, "summary") ==> s == AsText(Path(tree.root, "summary"))
  {
    match tree
    case Unparsable => answer
    case Parsed(root) =>
      var s := AsTextOr(Path(root, "summary"), Some(answer));
      assert s.Some?;
      s.value
  }

  /** Any other field: `root.path(key).asText(null)` when the answer parses,
      otherwise the builder's `null`. */
  function FieldOf(tree: ReadTree, key: string): (f: Option<string>)
    ensures f.None? <==> tree.Unparsable? || Absent(tree.root, key)
    ensures f.Some? ==> f.value == AsText(Path(tree.root, key))
  {
    match tree
    case Unparsable => None
    case Parsed(root) => AsTextOr(Path(root, key), None)
  }

  /** A summary field holding an object or an array reads as "", so such an
      answer fails the blank check however much else it says. */
  lemma ContainerSummaryIsBlank(answer: string, root: JsonNode)
    requires Has(root, "summary") && (root.fields["summary"].JObject? || root.fields["summary"].JArray?)
    ensures IsBlank(SummaryOf(answer, Parsed(root)))
  {
  }
}
