/** The mutable `LogContext` object a pino or winston logger handle closes over
    (src/interface/interface.types.ts:75-81), with the mutators both variants share.
    The optional maps are heap objects, so a shallow copy made by `branch` shares
    whichever of them exist at branch time. */
module Context {
  import opened Js
  import opened Interface

  class LogContext {
    var scope: seq<string>
    var ddtags: string
    /** `null` when the property is absent. */
    var metadata: Dict?
    var traceContext: Dict?
    var instigator: Option<Instigator>

    /** `{ scope: ['Main'], ddtags }`: the context a factory makes when it is given no
        parent context. */
    constructor Root(ddtags: string)
      ensures scope == ["Main"] && this.ddtags == ddtags
      ensures metadata == null && traceContext == null && instigator.None?
    {
      scope := ["Main"];
      this.ddtags := ddtags;
      metadata := null;
      traceContext := null;
      instigator := None;
    }

    /** `{ ...parent, scope: [...parent.scope, segment] }`: a new object, one scope
        segment longer, whose other properties are the parent's, maps by reference. */
    constructor Branched(parent: LogContext, segment: string)
      ensures scope == parent.scope + [segment]
      ensures ddtags == parent.ddtags && instigator == parent.instigator
      ensures metadata == parent.metadata && traceContext == parent.traceContext
    {
      scope := parent.scope + [segment];
      ddtags := parent.ddtags;
      metadata := parent.metadata;
      traceContext := parent.traceContext;
      instigator := parent.instigator;
    }

    /** What `...logContext` contributes to a record at this moment, except `scope`,
        which every record overwrites with its joined form: the maps as they are now. */
    function Fields(): (r: Fields)
      reads this, metadata, traceContext
      ensures r.Keys <= {"ddtags", "metadata", "traceContext", "instigator"}
      ensures "ddtags" in r && r["ddtags"] == Str(ddtags)
      ensures "metadata" in r <==> metadata != null
      ensures metadata != null ==> r["metadata"] == Obj(metadata.entries)
      ensures "traceContext" in r <==> traceContext != null
      ensures traceContext != null ==> r["traceContext"] == Obj(traceContext.entries)
      ensures "instigator" in r <==> instigator.Some?
      ensures instigator.Some? ==> r["instigator"] == InstigatorValue(instigator.value)
    {
      var withTags := map["ddtags" := Str(ddtags)];
      var withMetadata :=
        if metadata != null then withTags["metadata" := Obj(metadata.entries)] else withTags;
      var withTrace :=
        if traceContext != null then withMetadata["traceContext" := Obj(traceContext.entries)]
        else withMetadata;
      if instigator.Some? then withTrace["instigator" := InstigatorValue(instigator.value)] else withTrace
    }

    /** `setTraceContext`: the given object becomes the trace context, by reference. */
    method SetTraceContext(tc: Dict)
      modifies this
      ensures traceContext == tc
      ensures scope == old(scope) && ddtags == old(ddtags)
      ensures metadata == old(metadata) && instigator == old(instigator)
    {
      traceContext := tc;
    }

    /** `addAdditionalTraceContext`: creates the trace context if absent, then sets one
        key in place; any context sharing the map sees the change. */
    method AddAdditionalTraceContext(key: string, value: Value)
      modifies this, traceContext
      ensures traceContext != null
      ensures old(traceContext) != null ==> traceContext == old(traceContext)
      ensures old(traceContext) == null ==> fresh(traceContext)
      ensures traceContext.entries
              == (if old(traceContext) == null then map[] else old(traceContext.entries))[key := value]
      ensures scope == old(scope) && ddtags == old(ddtags)
      ensures metadata == old(metadata) && instigator == old(instigator)
    {
      if traceContext == null {
        traceContext := new Dict(map[]);
      }
      traceContext.entries := traceContext.entries[key := value];
    }

    /** `setInstigator`: replaces just that property. */
    method SetInstigator(who: Instigator)
      modifies this
      ensures instigator == Some(who)
      ensures scope == old(scope) && ddtags == old(ddtags)
      ensures metadata == old(metadata) && traceContext == old(traceContext)
    {
      instigator := Some(who);
    }

    /** `logContext.metadata ??= {}; logContext.metadata[key] = value`. */
    method PutMetadata(key: string, value: Value)
      modifies this, metadata
      ensures metadata != null
      ensures old(metadata) != null ==> metadata == old(metadata)
      ensures old(metadata) == null ==> fresh(metadata)
      ensures metadata.entries
              == (if old(metadata) == null then map[] else old(metadata.entries))[key := value]
      ensures scope == old(scope) && ddtags == old(ddtags)
      ensures traceContext == old(traceContext) && instigator == old(instigator)
    {
      if metadata == null {
        metadata := new Dict(map[]);
      }
      metadata.entries := metadata.entries[key := value];
    }
  }
}
