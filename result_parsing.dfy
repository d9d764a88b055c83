/**
 * Turning the remote's result record into the tool's reply: the list of
 * citation groups and the free-text content. Attributes the result may lack
 * are explicit `Option` fields instead of `hasattr` probes.
 */
module ResultParsing {
  import opened Wrappers
  import opened TaskRun

  /** One cited source in the tool's reply (`url`, `excerpts`, `title`). */
  datatype CitationEntry = CitationEntry(url: Option<string>, excerpts: seq<string>, title: Option<string>)

  /** One citation group in the tool's reply (`field`, `citations`, `confidence`, `reasoning`). */
  datatype CitationGroup = CitationGroup(
    field: Option<string>,
    citations: seq<CitationEntry>,
    confidence: Option<string>,
    reasoning: Option<string>
  )

  /** The basis items the parser walks: none unless both `output` and `output.basis` exist. */
  function BasisOf(result: TaskResult): seq<BasisItem> {
    if result.output.Some? && result.output.value.basis.Some? then result.output.value.basis.value
    else []
  }

  /** The cites of one basis item: none when its `citations` attribute is absent. */
  function CitesOf(item: BasisItem): seq<Cite> {
    item.citations.GetOr([])
  }

  function EntryOf(cite: Cite): CitationEntry {
    CitationEntry(cite.url, cite.excerpts.GetOr([]), cite.title)
  }

  function GroupOf(item: BasisItem): CitationGroup {
    var cites := CitesOf(item);
    CitationGroup(item.field, seq(|cites|, j requires 0 <= j < |cites| => EntryOf(cites[j])),
                  item.confidence, item.reasoning)
  }

  /** The citation groups of a result, one per basis item. */
  function CitationsOf(result: TaskResult): seq<CitationGroup> {
    var basis := BasisOf(result);
    seq(|basis|, i requires 0 <= i < |basis| => GroupOf(basis[i]))
  }

  /**
   * The groups follow the basis items one for one and in order, each group's
   * entries follow its cites one for one and in order, and every absent
   * attribute becomes `None`, or `[]` for `excerpts`; without `output` or
   * `output.basis` there are no groups.
   */
  lemma CitationGroupsFollowBasis(result: TaskResult)
    ensures result.output.None? || result.output.value.basis.None? ==> CitationsOf(result) == []
    ensures result.output.Some? && result.output.value.basis.Some? ==>
      |CitationsOf(result)| == |result.output.value.basis.value|
    ensures forall i :: 0 <= i < |CitationsOf(result)| ==>
      var g, item := CitationsOf(result)[i], BasisOf(result)[i];
      && g.field == item.field && g.confidence == item.confidence && g.reasoning == item.reasoning
      && (item.citations.None? ==> g.citations == [])
      && (item.citations.Some? ==> |g.citations| == |item.citations.value|)
      && forall j :: 0 <= j < |g.citations| ==>
        var e, c := g.citations[j], CitesOf(item)[j];
        && e.url == c.url && e.title == c.title
        && e.excerpts == (if c.excerpts.Some? then c.excerpts.value else [])
  {
  }

  /** The citation-parsing loops of `research_architecture_decision`. */
  method ParseCitations(result: TaskResult) returns (citations: seq<CitationGroup>)
    ensures citations == CitationsOf(result)
  {
    citations := [];
    if result.output.Some? && result.output.value.basis.Some? {
      var basis := result.output.value.basis.value;
      for i := 0 to |basis|
        invariant |citations| == i
        invariant forall k :: 0 <= k < i ==> citations[k] == GroupOf(basis[k])
      {
        var item := basis[i];
        var entries: seq<CitationEntry> := [];
        if item.citations.Some? {
          var cites := item.citations.value;
          for j := 0 to |cites|
            invariant |entries| == j
            invariant forall k :: 0 <= k < j ==> entries[k] == EntryOf(cites[k])
          {
            var cite := cites[j];
            var excerpts := if cite.excerpts.Some? then cite.excerpts.value else [];
            entries := entries + [CitationEntry(cite.url, excerpts, cite.title)];
          }
        }
        citations := citations + [CitationGroup(item.field, entries, item.confidence, item.reasoning)];
      }
    }
  }

  /** `result.output.content` when both attributes exist. */
  function ContentOf(result: TaskResult): Option<PyValue> {
    if result.output.Some? then result.output.value.content else None
  }

  /**
   * The content the tools reply with: "" when there is no content, a dict's
   * "output" entry (its `str()` form when that key is missing), and the
   * `str()` form of anything else. It is text in every case but one, a
   * dict whose "output" entry is not a string, which is passed on as it is;
   * when it is text, that text is the `str()` form of the "output" entry or
   * of the content itself.
   */
  function ExtractContent(result: TaskResult): (content: PyValue)
    ensures ContentOf(result).None? ==> content == Str("")
    ensures !content.Str? <==>
      && ContentOf(result).Some? && ContentOf(result).value.Dict?
      && "output" in ContentOf(result).value.entries
      && !ContentOf(result).value.entries["output"].Str?
    ensures ContentOf(result).Some? && content.Str? ==>
      var v := ContentOf(result).value;
      content.s == if v.Dict? && "output" in v.entries then v.entries["output"].ToStr() else v.ToStr()
    ensures ContentOf(result).Some? && ContentOf(result).value.Dict? && "output" in ContentOf(result).value.entries ==>
      content == ContentOf(result).value.entries["output"]
    ensures ContentOf(result).Some? && ContentOf(result).value.Str? ==> content == ContentOf(result).value
  {
    match ContentOf(result)
    case None => Str("")
    case Some(Dict(entries, repr)) => if "output" in entries then entries["output"] else Str(repr)
    case Some(v) => Str(v.ToStr())
  }
}
