/** module/value.py: `resolve_inline_values` replaces every `value` tag by its
    own literal. Unlike the other copies it has no `count > 0` guard: with no
    tag it merges an empty `resolved` into the pruned document, which is the
    document itself. */
module InlineValues {
  import opened Results
  import opened Document
  import opened Engine
  import opened Backends
  import opened Pass

  const KEY := "value"

  /** The literal of every `value` tag, by address. */
  ghost function Literals(doc: Doc): (v: map<Address, Doc>)
    ensures v.Keys == Locate(doc, KEY)
  {
    map a | a in Locate(doc, KEY) :: TagConfig(doc, KEY, a)
  }

  /** `add_to_resolved`: the literal itself, never an error. */
  function Literal(cfg: Doc): Result<Doc> {
    Ok(cfg)
  }

  /** `resolve_inline_values(app_config)`. */
  method ResolveInlineValues(doc: Doc) returns (r: Doc)
    requires Resolvable(doc, KEY)
    ensures r == Resolved(doc, KEY, Literals(doc))
    ensures Locate(doc, KEY) == {} ==> r == doc
    ensures forall a :: a in Locate(doc, KEY) ==>
              Get(r, a) == Some(MergeValue(Remaining(doc, KEY, a), TagConfig(doc, KEY, a)))
    ensures forall c :: Apart(doc, KEY, c) ==> Get(r, c) == Get(doc, c)
  {
    var acc, calls := Accumulate(doc, KEY, Literal);
    LiteralsFetched(doc);
    TagsNeedMap(doc, KEY);
    r := MergeInto(Prune(doc, KEY), acc.value);
    forall a | a in Locate(doc, KEY)
      ensures Get(r, a) == Some(MergeValue(Remaining(doc, KEY, a), TagConfig(doc, KEY, a)))
    {
      ResolvedAtTag(doc, KEY, Literals(doc), a);
    }
    forall c | Apart(doc, KEY, c) ensures Get(r, c) == Get(doc, c) {
      ResolvedElsewhere(doc, KEY, Literals(doc), c);
    }
    if Locate(doc, KEY) == {} {
      ResolvedNoTags(doc, KEY);
      assert Literals(doc) == map[];
    }
  }

  lemma LiteralsFetched(doc: Doc)
    ensures AllFetched(doc, KEY, Literal) && Fetched(doc, KEY, Literal) == Literals(doc)
  {
    assert AllFetched(doc, KEY, Literal);
    var f := Fetched(doc, KEY, Literal);
    forall a | a in Locate(doc, KEY) ensures f[a] == Literals(doc)[a] {
    }
  }

  /** A literal that is not a map replaces its container outright. */
  lemma ScalarLiteralReplaces(doc: Doc, a: Address)
    requires Resolvable(doc, KEY) && a in Locate(doc, KEY) && !TagConfig(doc, KEY, a).Map?
    ensures Get(Resolved(doc, KEY, Literals(doc)), a) == Some(TagConfig(doc, KEY, a))
  {
    ResolvedReplaces(doc, KEY, Literals(doc), a);
  }

  /** When no literal holds a `value` key itself, none is left afterwards:
      literals are not resolved again. */
  lemma InlineKeyFree(doc: Doc)
    requires Resolvable(doc, KEY)
    requires forall a :: a in Locate(doc, KEY) ==> KeyFree(TagConfig(doc, KEY, a), KEY)
    ensures KeyFree(Resolved(doc, KEY, Literals(doc)), KEY)
  {
    ResolvedKeyFree(doc, KEY, Literals(doc));
  }

  /** The inline copy and the `Value` resolver class agree: the class's fetch
      returns the configuration unchanged, so both merge the literals. */
  lemma InlineIsValueResolver(env: Env, doc: Doc)
    requires Resolvable(doc, KEY)
    ensures AllFetched(doc, KEY, Fetcher(Value, env, Provider(Value, env)))
    ensures Fetched(doc, KEY, Fetcher(Value, env, Provider(Value, env))) == Literals(doc)
  {
  }
}
