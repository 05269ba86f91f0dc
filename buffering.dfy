/**
 * What `chunk_to_buffers` computes from a decoded chunk: a Ruby `Hash`
 * from resolved source to the lines of that source. A Ruby `Hash` keeps
 * its keys in insertion order, and `write` walks the groups in that order,
 * so the model keeps the order of the keys beside the map.
 */
module Buffering {
  import opened Strings
  import opened Events

  /** The `buffers` hash: its keys in insertion order and the lines per key. */
  datatype Buffers = Buffers(order: seq<string>, groups: map<string, seq<string>>)

  /** The sources of a chunk, each once, in the order they first appear. */
  function Sources(f: SourceFormatter, chunk: seq<Entry>): (keys: seq<string>)
    decreases |chunk|
  {
    if chunk == [] then []
    else
      var earlier := Sources(f, chunk[..|chunk| - 1]);
      var s := ResolveSource(f, chunk[|chunk| - 1].tag);
      if s in earlier then earlier else earlier + [s]
  }

  /** The lines of the entries whose tag resolves to `source`, in chunk order. */
  function LinesFor(f: SourceFormatter, chunk: seq<Entry>, source: string): (lines: seq<string>)
    decreases |chunk|
  {
    if chunk == [] then []
    else
      var last := chunk[|chunk| - 1];
      LinesFor(f, chunk[..|chunk| - 1], source)
        + (if ResolveSource(f, last.tag) == source then [last.line] else [])
  }

  /** The groups `write` walks: each source's lines, sources in insertion order. */
  function Grouped(f: SourceFormatter, chunk: seq<Entry>): (groups: seq<seq<string>>)
    ensures |groups| == |Sources(f, chunk)|
    ensures forall k :: 0 <= k < |groups| ==> groups[k] == LinesFor(f, chunk, Sources(f, chunk)[k])
  {
    var keys := Sources(f, chunk);
    seq(|keys|, k requires 0 <= k < |keys| => LinesFor(f, chunk, keys[k]))
  }

  /** All lines of a chunk, in order. */
  function AllLines(chunk: seq<Entry>): seq<string>
    decreases |chunk|
  {
    if chunk == [] then [] else AllLines(chunk[..|chunk| - 1]) + [chunk[|chunk| - 1].line]
  }

  /** The group sizes of `keys` added up. */
  function SizeSum(f: SourceFormatter, chunk: seq<Entry>, keys: seq<string>): nat
    decreases |keys|
  {
    if keys == [] then 0 else |LinesFor(f, chunk, keys[0])| + SizeSum(f, chunk, keys[1..])
  }

  predicate Distinct(keys: seq<string>) {
    forall i, j :: 0 <= i < j < |keys| ==> keys[i] != keys[j]
  }

  /** The keys are exactly the resolved sources of the entries. */
  lemma {:induction false} SourcesAreResolvedTags(f: SourceFormatter, chunk: seq<Entry>, s: string)
    ensures s in Sources(f, chunk) <==>
              exists k :: 0 <= k < |chunk| && ResolveSource(f, chunk[k].tag) == s
    decreases |chunk|
  {
    if chunk != [] {
      var init := chunk[..|chunk| - 1];
      SourcesAreResolvedTags(f, init, s);
      if exists k :: 0 <= k < |init| && ResolveSource(f, init[k].tag) == s {
        var k :| 0 <= k < |init| && ResolveSource(f, init[k].tag) == s;
        assert chunk[k] == init[k];
      }
      if exists k :: 0 <= k < |chunk| && ResolveSource(f, chunk[k].tag) == s {
        var k :| 0 <= k < |chunk| && ResolveSource(f, chunk[k].tag) == s;
        if k < |init| {
          assert init[k] == chunk[k];
        }
      }
    }
  }

  /** Every key is inserted once. */
  lemma {:induction false} SourcesDistinct(f: SourceFormatter, chunk: seq<Entry>)
    ensures Distinct(Sources(f, chunk))
    decreases |chunk|
  {
    if chunk != [] {
      SourcesDistinct(f, chunk[..|chunk| - 1]);
    }
  }

  /** A source has a group exactly when it has at least one line. */
  lemma {:induction false} GroupsAreNonEmpty(f: SourceFormatter, chunk: seq<Entry>, s: string)
    ensures s in Sources(f, chunk) <==> LinesFor(f, chunk, s) != []
    decreases |chunk|
  {
    if chunk != [] {
      GroupsAreNonEmpty(f, chunk[..|chunk| - 1], s);
    }
  }

  /** Later entries only ever append to a group: order is kept across any cut. */
  lemma {:induction false} LinesForAppend(f: SourceFormatter, c1: seq<Entry>, c2: seq<Entry>, s: string)
    ensures LinesFor(f, c1 + c2, s) == LinesFor(f, c1, s) + LinesFor(f, c2, s)
    decreases |c2|
  {
    if c2 == [] {
      assert c1 + c2 == c1;
    } else {
      var c, init2 := c1 + c2, c2[..|c2| - 1];
      var last := c2[|c2| - 1];
      var tail := if ResolveSource(f, last.tag) == s then [last.line] else [];
      assert c[..|c| - 1] == c1 + init2;
      assert c[|c| - 1] == last;
      assert LinesFor(f, c, s) == LinesFor(f, c1 + init2, s) + tail;
      assert LinesFor(f, c2, s) == LinesFor(f, init2, s) + tail;
      LinesForAppend(f, c1, init2, s);
    }
  }

  lemma {:induction false} SizeSumAppend(f: SourceFormatter, chunk: seq<Entry>, keys: seq<string>, k: string)
    ensures SizeSum(f, chunk, keys + [k]) == SizeSum(f, chunk, keys) + |LinesFor(f, chunk, k)|
    decreases |keys|
  {
    if keys == [] {
      assert [k][1..] == [];
    } else {
      assert (keys + [k])[1..] == keys[1..] + [k];
      SizeSumAppend(f, chunk, keys[1..], k);
    }
  }

  /** One more entry adds one line to its own group and to no other. */
  lemma {:induction false} SizeSumGrows(f: SourceFormatter, chunk: seq<Entry>, e: Entry, keys: seq<string>)
    requires Distinct(keys)
    ensures SizeSum(f, chunk + [e], keys)
              == SizeSum(f, chunk, keys) + (if ResolveSource(f, e.tag) in keys then 1 else 0)
    decreases |keys|
  {
    if keys != [] {
      assert (chunk + [e])[..|chunk + [e]| - 1] == chunk;
      SizeSumGrows(f, chunk, e, keys[1..]);
      assert ResolveSource(f, e.tag) in keys <==>
               ResolveSource(f, e.tag) == keys[0] || ResolveSource(f, e.tag) in keys[1..];
      if ResolveSource(f, e.tag) == keys[0] {
        assert ResolveSource(f, e.tag) !in keys[1..];
      }
    }
  }

  /** The group sizes add up to the number of entries: no line lost or repeated. */
  lemma {:induction false} GroupSizesSum(f: SourceFormatter, chunk: seq<Entry>)
    ensures SizeSum(f, chunk, Sources(f, chunk)) == |chunk|
    decreases |chunk|
  {
    if chunk != [] {
      var init, e := chunk[..|chunk| - 1], chunk[|chunk| - 1];
      var keys := Sources(f, init);
      var t := ResolveSource(f, e.tag);
      assert chunk == init + [e];
      GroupSizesSum(f, init);
      SourcesDistinct(f, init);
      SizeSumGrows(f, init, e, keys);
      if t !in keys {
        SizeSumAppend(f, chunk, keys, t);
        GroupsAreNonEmpty(f, init, t);
      }
    }
  }

  /**
   * With a template that has no placeholder, a non-empty chunk forms one
   * group, under the template itself, holding every line in order.
   */
  lemma {:induction false} ConstantSourceOneGroup(template: string, chunk: seq<Entry>)
    requires forall j: nat :: !OccursAt(template, TagPlaceholder, j)
    requires chunk != []
    ensures Sources(SourceFormatterFor(template), chunk) == [template]
    ensures LinesFor(SourceFormatterFor(template), chunk, template) == AllLines(chunk)
    decreases |chunk|
  {
    var f := SourceFormatterFor(template);
    forall k | 0 <= k < |chunk| ensures ResolveSource(f, chunk[k].tag) == template {
      TemplateWithoutPlaceholderIsConstant(template, chunk[k].tag, chunk[k].tag);
    }
    if |chunk| > 1 {
      var init := chunk[..|chunk| - 1];
      forall k | 0 <= k < |init| ensures init[k] == chunk[k] { }
      ConstantSourceOneGroup(template, init);
    }
  }
}
