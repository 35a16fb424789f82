/** Building the parameters of a request from secrets and an inline block, with a redacted copy. */
module Parameters {
  import opened Common

  /** A parameter value: a string, or any other JSON value in its written form. */
  datatype Value = Text(text: string) | Other(json: string)

  const REDACTED := Text("<redacted>")

  type Block = map<Name, Value>

  /** A source without a secret reference is empty; a secret may be missing or not parse. */
  datatype Source = NoReference | SecretKey(content: Option<Block>)

  datatype Built = Built(parameters: Block, redacted: Block)

  function Content(s: Source): Option<Block> {
    match s
    case NoReference => Some(map[])
    case SecretKey(content) => content
  }

  // ---------- What a build means, whatever the order ----------

  ghost predicate Readable(sources: seq<Source>, inline: Option<Option<Block>>) {
    && (forall i :: 0 <= i < |sources| ==> Content(sources[i]).Some?)
    && (inline.Some? ==> inline.value.Some?)
  }

  ghost predicate Has(s: Source, k: Name) {
    Content(s).Some? && k in Content(s).value
  }

  ghost predicate InlineHas(inline: Option<Option<Block>>, k: Name) {
    inline.Some? && inline.value.Some? && k in inline.value.value
  }

  /** No key comes from two places. */
  ghost predicate Disjoint(sources: seq<Source>, inline: Option<Option<Block>>) {
    && (forall i, j, k :: 0 <= i < j < |sources| && Has(sources[i], k) ==> !Has(sources[j], k))
    && (forall i, k :: 0 <= i < |sources| && Has(sources[i], k) ==> !InlineHas(inline, k))
  }

  /** Some secret has the key. */
  ghost predicate FromSecret(sources: seq<Source>, k: Name) {
    exists i :: 0 <= i < |sources| && Has(sources[i], k)
  }

  /** Both maps have exactly the keys of all the sources. */
  ghost predicate Covers(sources: seq<Source>, inline: Option<Option<Block>>, r: Built) {
    && r.redacted.Keys == r.parameters.Keys
    && (forall k :: k in r.parameters <==> FromSecret(sources, k) || InlineHas(inline, k))
  }

  /** The true value under every key, and in the redacted map a marker for what came from a secret. */
  ghost predicate Values(sources: seq<Source>, inline: Option<Option<Block>>, r: Built)
    requires Covers(sources, inline, r)
  {
    && (forall i, k :: 0 <= i < |sources| && Has(sources[i], k) && k in r.parameters ==>
          r.parameters[k] == Content(sources[i]).value[k] && r.redacted[k] == REDACTED)
    && (forall k :: InlineHas(inline, k) && k in r.parameters ==>
          r.parameters[k] == inline.value.value[k] && r.redacted[k] == r.parameters[k])
  }

  ghost predicate Unites(sources: seq<Source>, inline: Option<Option<Block>>, r: Built) {
    Covers(sources, inline, r) && Values(sources, inline, r)
  }

  /** The answer is settled by the sources alone. */
  ghost predicate Answers(sources: seq<Source>, inline: Option<Option<Block>>, r: Option<Built>) {
    && (r.Some? <==> Readable(sources, inline) && Disjoint(sources, inline))
    && (r.Some? ==> Unites(sources, inline, r.value))
  }

  // ---------- The loops ----------

  /** The entries of a block joined to what was there. */
  ghost predicate Joins(before: Built, block: Block, secret: bool, after: Built) {
    && after.parameters.Keys == after.redacted.Keys == before.parameters.Keys + block.Keys
    && before.redacted.Keys == before.parameters.Keys
    && (forall k :: k in before.parameters ==>
          after.parameters[k] == before.parameters[k] && after.redacted[k] == before.redacted[k])
    && (forall k :: k in block ==>
          after.parameters[k] == block[k] && after.redacted[k] == if secret then REDACTED else block[k])
  }

  /** Adds one block, entry by entry in any order, unless a key is already there. */
  method Merge(before: Built, block: Block, secret: bool) returns (r: Option<Built>)
    requires before.parameters.Keys == before.redacted.Keys
    ensures r.Some? <==> before.parameters.Keys !! block.Keys
    ensures r.Some? ==> Joins(before, block, secret, r.value)
  {
    var after := before;
    var keys := block.Keys;
    while keys != {}
      invariant keys <= block.Keys && before.parameters.Keys !! (block.Keys - keys)
      invariant after.parameters.Keys == after.redacted.Keys == before.parameters.Keys + (block.Keys - keys)
      invariant forall k :: k in before.parameters ==>
        after.parameters[k] == before.parameters[k] && after.redacted[k] == before.redacted[k]
      invariant forall k :: k in block && k !in keys ==>
        after.parameters[k] == block[k] && after.redacted[k] == if secret then REDACTED else block[k]
    {
      var k :| k in keys;
      if k in after.parameters {
        return None;
      }
      after := Built(after.parameters[k := block[k]], after.redacted[k := if secret then REDACTED else block[k]]);
      keys := keys - {k};
    }
    return Some(after);
  }

  lemma GrowsBy(p: seq<Source>, s: Source, k: Name)
    ensures FromSecret(p + [s], k) <==> FromSecret(p, k) || Has(s, k)
  {
    var q := p + [s];
    if FromSecret(p, k) {
      var j :| 0 <= j < |p| && Has(p[j], k);
      assert Has(q[j], k);
    }
    if Has(s, k) { assert Has(q[|p|], k); }
  }

  /** One more source, with other keys, keeps the sources apart. */
  lemma OneMoreApart(p: seq<Source>, s: Source, before: Built)
    requires Disjoint(p, None) && Covers(p, None, before) && forall k :: Has(s, k) ==> k !in before.parameters
    ensures Disjoint(p + [s], None)
  {
    forall j, k | 0 <= j < |p| && Has(p[j], k) ensures !Has(s, k) {
      assert FromSecret(p, k);
    }
  }

  lemma OneMoreCovers(p: seq<Source>, s: Source, before: Built, block: Block, after: Built)
    requires Content(s) == Some(block) && Covers(p, None, before) && Joins(before, block, true, after)
    ensures Covers(p + [s], None, after)
  {
    hide FromSecret;
    forall k ensures k in after.parameters <==> FromSecret(p + [s], k) {
      GrowsBy(p, s, k);
      assert k in after.parameters <==> k in before.parameters || k in block;
    }
  }

  lemma OneMoreValue(p: seq<Source>, s: Source, before: Built, block: Block, after: Built, j: nat, k: Name)
    requires Content(s) == Some(block) && Unites(p, None, before) && Joins(before, block, true, after)
    requires j <= |p| && Has((p + [s])[j], k)
    ensures k in after.parameters && k in after.redacted && after.redacted[k] == REDACTED
    ensures k !in block || j == |p| ==> after.parameters[k] == Content((p + [s])[j]).value[k]
  {
    if j < |p| {
      assert Has(p[j], k) && FromSecret(p, k);
    }
  }

  /** Merging it extends the union. */
  lemma OneMoreUnites(p: seq<Source>, s: Source, before: Built, block: Block, after: Built)
    requires Content(s) == Some(block) && Unites(p, None, before) && Disjoint(p + [s], None)
    requires Joins(before, block, true, after)
    ensures Unites(p + [s], None, after)
  {
    hide Joins, FromSecret;
    var q := p + [s];
    OneMoreCovers(p, s, before, block, after);
    forall j, k | 0 <= j < |q| && Has(q[j], k)
      ensures k in after.parameters && after.parameters[k] == Content(q[j]).value[k] && after.redacted[k] == REDACTED
    {
      OneMoreValue(p, s, before, block, after, j, k);
      assert j < |p| ==> !Has(q[|p|], k);
    }
  }

  /** A key that is already there comes from an earlier source. */
  lemma Conflict(sources: seq<Source>, i: nat, before: Built, block: Block)
    requires i < |sources| && Content(sources[i]) == Some(block)
    requires Covers(sources[..i], None, before) && !(before.parameters.Keys !! block.Keys)
    ensures !Disjoint(sources, None)
  {
    var k :| k in before.parameters && k in block;
    assert FromSecret(sources[..i], k);
    var j :| 0 <= j < i && Has(sources[..i][j], k);
    assert Has(sources[j], k) && Has(sources[i], k);
  }

  method MergeSources(sources: seq<Source>) returns (r: Option<Built>)
    ensures Answers(sources, None, r)
  {
    var built := Built(map[], map[]);
    for i := 0 to |sources|
      invariant Readable(sources[..i], None) && Disjoint(sources[..i], None) && Unites(sources[..i], None, built)
    {
      var block := Content(sources[i]);
      if block.None? {
        return None;
      }
      var merged := Merge(built, block.value, true);
      if merged.None? {
        Conflict(sources, i, built, block.value);
        return None;
      }
      assert sources[..i + 1] == sources[..i] + [sources[i]];
      OneMoreApart(sources[..i], sources[i], built);
      OneMoreUnites(sources[..i], sources[i], built, block.value, merged.value);
      built := merged.value;
    }
    assert sources[..|sources|] == sources;
    return Some(built);
  }

  /** buildParameters: `inline` is None without a block, and Some(None) if the block does not parse. */
  method BuildParameters(sources: seq<Source>, inline: Option<Option<Block>>) returns (r: Option<Built>)
    ensures Answers(sources, inline, r)
  {
    var fromSources := MergeSources(sources);
    if fromSources.None? {
      assert Disjoint(sources, inline) ==> Disjoint(sources, None);
      return None;
    }
    if inline.None? {
      return fromSources;
    }
    if inline.value.None? {
      return None;
    }
    var block := inline.value.value;
    r := Merge(fromSources.value, block, false);
    if r.None? {
      ghost var k :| k in fromSources.value.parameters && k in block;
      assert InlineHas(inline, k) && FromSecret(sources, k);
    } else {
      InlineLast(sources, fromSources.value, block, r.value);
    }
  }

  /** Keys of the sources are none of the block's. */
  lemma InlineApart(sources: seq<Source>, before: Built, block: Block)
    requires Disjoint(sources, None) && Covers(sources, None, before) && before.parameters.Keys !! block.Keys
    ensures Disjoint(sources, Some(Some(block)))
  {
    forall i, k | 0 <= i < |sources| && Has(sources[i], k) ensures k !in block {
      assert FromSecret(sources, k);
    }
  }

  lemma InlineCovers(sources: seq<Source>, before: Built, block: Block, after: Built)
    requires Covers(sources, None, before) && Joins(before, block, false, after)
    ensures Covers(sources, Some(Some(block)), after)
  {
    hide FromSecret;
    forall k ensures k in after.parameters <==> FromSecret(sources, k) || k in block {
      assert k in after.parameters <==> k in before.parameters || k in block;
    }
  }

  lemma InlineValue(sources: seq<Source>, before: Built, block: Block, after: Built, i: nat, k: Name)
    requires Unites(sources, None, before) && Joins(before, block, false, after)
    requires i < |sources| && Has(sources[i], k)
    ensures k in after.parameters && k in after.redacted
    ensures after.parameters[k] == Content(sources[i]).value[k] && after.redacted[k] == REDACTED
  {
    assert FromSecret(sources, k);
  }

  lemma InlineLast(sources: seq<Source>, before: Built, block: Block, after: Built)
    requires Disjoint(sources, None) && Unites(sources, None, before) && before.parameters.Keys !! block.Keys
    requires Joins(before, block, false, after)
    ensures Disjoint(sources, Some(Some(block))) && Unites(sources, Some(Some(block)), after)
  {
    InlineApart(sources, before, block);
    InlineCovers(sources, before, block, after);
    forall i, k | 0 <= i < |sources| && Has(sources[i], k)
      ensures k in after.parameters && after.parameters[k] == Content(sources[i]).value[k] && after.redacted[k] == REDACTED
    {
      InlineValue(sources, before, block, after, i, k);
    }
    hide FromSecret, Covers, Disjoint;
  }

  // ---------- The answer does not depend on any order ----------

  lemma AnswersAgree(sources: seq<Source>, inline: Option<Option<Block>>, r: Option<Built>, r': Option<Built>)
    requires Answers(sources, inline, r) && Answers(sources, inline, r')
    ensures r == r'
  {
    if r.Some? {
      forall k {
        UnionsAgree(sources, inline, r.value, r'.value, k);
      }
      assert r.value.parameters == r'.value.parameters && r.value.redacted == r'.value.redacted;
    }
  }

  lemma UnionsAgree(sources: seq<Source>, inline: Option<Option<Block>>, r: Built, r': Built, k: Name)
    requires Unites(sources, inline, r) && Unites(sources, inline, r')
    ensures k in r.parameters <==> k in r'.parameters
    ensures k in r.parameters ==> r.parameters[k] == r'.parameters[k] && r.redacted[k] == r'.redacted[k]
  {
    if k in r.parameters && !InlineHas(inline, k) {
      var i :| 0 <= i < |sources| && Has(sources[i], k);
    }
  }

  /** `to` rearranges the sources: position i holds what was at p[i], and q is the inverse. */
  ghost predicate Rearranges(sources: seq<Source>, to: seq<Source>, p: seq<nat>, q: seq<nat>) {
    && |sources| == |to| == |p| == |q|
    && (forall i :: 0 <= i < |p| ==> p[i] < |p| && q[p[i]] == i && to[i] == sources[p[i]])
    && (forall i :: 0 <= i < |q| ==> q[i] < |q| && p[q[i]] == i)
  }

  lemma OrderDoesNotMatter(sources: seq<Source>, to: seq<Source>, p: seq<nat>, q: seq<nat>,
                           inline: Option<Option<Block>>, r: Option<Built>)
    requires Rearranges(sources, to, p, q) && Answers(sources, inline, r)
    ensures Answers(to, inline, r)
  {
    assert forall i :: 0 <= i < |q| ==> sources[i] == to[q[i]];
    assert Readable(to, inline) == Readable(sources, inline) by { SameReadable(sources, to, p, q, inline); }
    SameDisjoint(sources, to, p, q, inline);
    assert Rearranges(to, sources, q, p);
    SameDisjoint(to, sources, q, p, inline);
    if r.Some? {
      forall k ensures FromSecret(to, k) <==> FromSecret(sources, k) {
        SameKeys(sources, to, p, q, k);
        SameKeys(to, sources, q, p, k);
      }
    }
  }

  lemma SameKeys(sources: seq<Source>, to: seq<Source>, p: seq<nat>, q: seq<nat>, k: Name)
    requires Rearranges(sources, to, p, q)
    ensures FromSecret(sources, k) ==> FromSecret(to, k)
  {
    if FromSecret(sources, k) {
      var i :| 0 <= i < |sources| && Has(sources[i], k);
      assert p[q[i]] == i && Has(to[q[i]], k);
    }
  }

  lemma SameReadable(sources: seq<Source>, to: seq<Source>, p: seq<nat>, q: seq<nat>, inline: Option<Option<Block>>)
    requires Rearranges(sources, to, p, q)
    ensures Readable(sources, inline) <==> Readable(to, inline)
  {
    forall i | 0 <= i < |q| ensures sources[i] == to[q[i]] {
      assert p[q[i]] == i;
    }
  }

  lemma SameDisjoint(sources: seq<Source>, to: seq<Source>, p: seq<nat>, q: seq<nat>, inline: Option<Option<Block>>)
    requires Rearranges(sources, to, p, q)
    ensures Disjoint(sources, inline) ==> Disjoint(to, inline)
  {
    if Disjoint(sources, inline) {
      forall i, j, k | 0 <= i < j < |to| && Has(to[i], k) ensures !Has(to[j], k) {
        assert q[p[i]] != q[p[j]];
        assert p[i] < p[j] || p[j] < p[i];
      }
    }
  }
}
