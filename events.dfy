/**
 * What `configure` decides about events and what `format` produces for
 * one event: the source-name formatter chosen from the `source` template,
 * and the line `"<time>: <record-json>\n"` that travels beside its tag.
 */
module Events {
  import opened Wrappers
  import opened Strings

  /** The placeholder the `source` template may contain, and its default value. */
  const TagPlaceholder: string := "{TAG}"

  /** The two source formatters `configure` can choose between. */
  datatype SourceFormatter =
    | TagAsSource                       // template exactly "{TAG}": the tag itself
    | TemplatedSource(template: string) // any other template: `template.sub('{TAG}', tag)`

  /** The formatter `configure` installs for a given `source` template. */
  function SourceFormatterFor(source: string): (f: SourceFormatter)
    ensures f == TagAsSource <==> source == TagPlaceholder
    ensures f.TemplatedSource? ==> f.template == source
  {
    if source == TagPlaceholder then TagAsSource else TemplatedSource(source)
  }

  /** The source name a tag is grouped under. */
  function ResolveSource(f: SourceFormatter, tag: string): (source: string)
    ensures f.TagAsSource? ==> source == tag
    ensures f.TemplatedSource? && (forall j: nat :: !OccursAt(f.template, TagPlaceholder, j)) ==>
              source == f.template
    ensures forall i: nat :: f.TemplatedSource? && FirstOccurrence(f.template, TagPlaceholder, i) ==>
              source == f.template[..i] + tag + f.template[i + |TagPlaceholder|..]
  {
    match f
    case TagAsSource => tag
    case TemplatedSource(template) => Sub(template, TagPlaceholder, tag)
  }

  /** The source name for `tag` under the configured `template`. */
  function SourceName(template: string, tag: string): string {
    ResolveSource(SourceFormatterFor(template), tag)
  }

  /**
   * The default template maps every tag to itself, and the general
   * substitution would have given the same answer.
   */
  lemma TagTemplateIsIdentity(tag: string)
    ensures SourceName(TagPlaceholder, tag) == tag
    ensures ResolveSource(TemplatedSource(TagPlaceholder), tag) == tag
  {
    assert FirstOccurrence(TagPlaceholder, TagPlaceholder, 0);
  }

  /** Any template: its first placeholder, and only that one, becomes the tag. */
  lemma TemplateReplacesFirstPlaceholder(template: string, tag: string, i: nat)
    requires FirstOccurrence(template, TagPlaceholder, i)
    ensures SourceName(template, tag) == template[..i] + tag + template[i + |TagPlaceholder|..]
  {
    if template == TagPlaceholder {
      assert i == 0;
    }
  }

  /** A template without the placeholder gives the same source for every tag. */
  lemma TemplateWithoutPlaceholderIsConstant(template: string, tag1: string, tag2: string)
    requires forall j: nat :: !OccursAt(template, TagPlaceholder, j)
    ensures SourceName(template, tag1) == template
    ensures SourceName(template, tag1) == SourceName(template, tag2)
  {
    assert OccursAt(TagPlaceholder, TagPlaceholder, 0);
  }

  /** `"prefix-{TAG}-suffix"` gives `"prefix-<tag>-suffix"` when the prefix holds no `{TAG}`. */
  lemma PrefixedTemplate(prefix: string, suffix: string, tag: string)
    requires forall j: nat :: !OccursAt(prefix, TagPlaceholder, j)
    ensures SourceName(prefix + TagPlaceholder + suffix, tag) == prefix + tag + suffix
  {
    var t := prefix + TagPlaceholder + suffix;
    var n := |prefix|;
    assert t[n..n + |TagPlaceholder|] == TagPlaceholder;
    forall j: nat | j < n
      ensures !OccursAt(t, TagPlaceholder, j)
    {
      if j + |TagPlaceholder| <= n {
        assert t[j..j + |TagPlaceholder|] == prefix[j..j + |TagPlaceholder|];
        assert !OccursAt(prefix, TagPlaceholder, j);
      } else {
        // `{` opens the placeholder only at its first character, and `t[n]` is that `{`.
        var w := t[j..j + |TagPlaceholder|];
        assert w[n - j] == t[n] == '{';
        assert TagPlaceholder[n - j] != '{';
      }
    }
    assert FirstOccurrence(t, TagPlaceholder, n);
    TemplateReplacesFirstPlaceholder(t, tag, n);
    assert t[..n] == prefix;
    assert t[n + |TagPlaceholder|..] == suffix;
  }

  /** A decoded chunk entry: the `[tag, event]` pair `format` packs. */
  datatype Entry = Entry(tag: string, line: string)

  /**
   * The prefix `format` writes before the record: the time formatter's text
   * followed by `": "`, or nothing when no time formatter is set.
   */
  function TimePrefix(timeText: Option<string>): string {
    match timeText
    case Some(t) => t + ": "
    case None => ""
  }

  /**
   * The event line for a record whose time renders as `timeText` and whose
   * record renders as `json`.
   */
  function FormatLine(timeText: Option<string>, json: string): (line: string)
    ensures StartsWith(line, TimePrefix(timeText))
    ensures |line| > 0 && line[|line| - 1] == '\n'
  {
    var line := TimePrefix(timeText) + json + "\n";
    assert line[..|TimePrefix(timeText)|] == TimePrefix(timeText);
    line
  }

  /** `format(tag, time, record)`: the line, with the tag beside it rather than in it. */
  function Format(tag: string, timeText: Option<string>, json: string): (e: Entry)
    ensures e.tag == tag
    ensures StartsWith(e.line, TimePrefix(timeText))
    ensures |e.line| == |TimePrefix(timeText)| + |json| + 1
    ensures e.line[|TimePrefix(timeText)|..|e.line| - 1] == json && e.line[|e.line| - 1] == '\n'
  {
    Entry(tag, FormatLine(timeText, json))
  }

  /** The inverse of `FormatLine`: the record text of a well-formed line. */
  function ParseLine(line: string, timeText: Option<string>): Option<string> {
    var p := TimePrefix(timeText);
    if StartsWith(line, p) && |line| > |p| && line[|line| - 1] == '\n'
    then Some(line[|p|..|line| - 1])
    else None
  }

  /** What `format` packs can be taken apart again: the tag and the record text. */
  lemma FormatRoundTrip(tag: string, timeText: Option<string>, json: string)
    ensures Format(tag, timeText, json).tag == tag
    ensures ParseLine(Format(tag, timeText, json).line, timeText) == Some(json)
  {
    var p := TimePrefix(timeText);
    var line := FormatLine(timeText, json);
    assert line == p + json + "\n";
    assert line[|p|..|line| - 1] == json;
  }

  /** Every line `ParseLine` accepts is the line `format` writes for its record text. */
  lemma ParseLineRoundTrip(line: string, timeText: Option<string>, json: string)
    requires ParseLine(line, timeText) == Some(json)
    ensures FormatLine(timeText, json) == line
  {
    var p := TimePrefix(timeText);
    assert line == line[..|p|] + line[|p|..|line| - 1] + [line[|line| - 1]];
  }
}
