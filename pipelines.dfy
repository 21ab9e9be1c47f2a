/** The translation-pipeline cache (`PipelineManager`): a process-wide map from
    a Hugging Face model name to a loaded translator, filled lazily on the
    first request for a (source, target) language pair and never evicted. */
module Pipelines {
  import opened Optional

  /** An opaque, ready-to-invoke translation model. */
  datatype Translator = Translator(id: nat)

  /** What one call of the model loader yields: a translator, or an exception
      (download failure, unknown model, ...). */
  datatype LoadOutcome = Loaded(handle: Translator) | LoadFailed

  type Cache = map<string, Translator>

  const ModelPrefix: string := "Helsinki-NLP/opus-mt-"

  /** The cache key, which is also the model name handed to the loader. */
  function PipelineName(source: string, target: string): string {
    ModelPrefix + source + "-" + target
  }

  /** The task string handed to the loader alongside the model name. */
  function TaskName(source: string, target: string): string {
    "translation_" + source + "_to_" + target
  }

  /** One request to the cache, on values. A hit returns the stored translator
      and leaves the cache alone; a miss asks `loader` (with the task and model
      names) and, on success, records exactly the new entry. The contract
      states the cache's invariants: nothing is ever removed or replaced, at
      most the requested key is added, a returned translator is always the one
      now stored under the key, and a failure leaves no trace. */
  function Acquire(cache: Cache, source: string, target: string,
                   loader: (string, string) -> LoadOutcome): (r: (Option<Translator>, Cache))
    ensures cache.Keys <= r.1.Keys <= cache.Keys + {PipelineName(source, target)}
    ensures forall k :: k in cache ==> r.1[k] == cache[k]
    ensures r.0.Some? <==> PipelineName(source, target) in r.1
    ensures r.0.Some? ==> r.0.value == r.1[PipelineName(source, target)]
    ensures PipelineName(source, target) in cache ==> r.0 == Some(cache[PipelineName(source, target)])
    ensures PipelineName(source, target) !in cache ==>
              r.0 == (match loader(TaskName(source, target), PipelineName(source, target))
                      case Loaded(h) => Some(h)
                      case LoadFailed => None)
  {
    var name := PipelineName(source, target);
    if name in cache then (Some(cache[name]), cache)
    else match loader(TaskName(source, target), name)
      case Loaded(h) => (Some(h), cache[name := h])
      case LoadFailed => (None, cache)
  }

  /** A hit never consults the loader: any two loaders give the same answer. */
  lemma HitIgnoresLoader(cache: Cache, source: string, target: string,
                         loader1: (string, string) -> LoadOutcome, loader2: (string, string) -> LoadOutcome)
    requires PipelineName(source, target) in cache
    ensures Acquire(cache, source, target, loader1) == Acquire(cache, source, target, loader2)
    ensures Acquire(cache, source, target, loader1).1 == cache
  {
  }

  /** Load once, reuse forever: after a successful request, asking again for
      the same pair returns the same translator and changes nothing, whatever
      the loader would now do. */
  lemma LoadsOnce(cache: Cache, source: string, target: string,
                  first: (string, string) -> LoadOutcome, later: (string, string) -> LoadOutcome)
    requires Acquire(cache, source, target, first).0.Some?
    ensures Acquire(Acquire(cache, source, target, first).1, source, target, later)
            == Acquire(cache, source, target, first)
  {
  }

  /** A failed load records nothing, so the next request for the pair is a
      fresh miss that consults the loader again. */
  lemma RetriesAfterFailure(cache: Cache, source: string, target: string,
                            first: (string, string) -> LoadOutcome, later: (string, string) -> LoadOutcome)
    requires Acquire(cache, source, target, first).0.None?
    ensures Acquire(cache, source, target, first).1 == cache
    ensures PipelineName(source, target) !in cache
    ensures Acquire(Acquire(cache, source, target, first).1, source, target, later).0
            == (match later(TaskName(source, target), PipelineName(source, target))
                case Loaded(h) => Some(h)
                case LoadFailed => None)
  {
  }

  /** Distinct language pairs get distinct cache entries, provided the source
      codes contain no '-' (the separator the name uses). */
  lemma PipelineNameInjective(s1: string, t1: string, s2: string, t2: string)
    requires '-' !in s1 && '-' !in s2
    requires PipelineName(s1, t1) == PipelineName(s2, t2)
    ensures s1 == s2 && t1 == t2
  {
    var n1, n2 := PipelineName(s1, t1), PipelineName(s2, t2);
    var p := |ModelPrefix|;
    assert n1[p + |s1|] == '-';
    assert n2[p + |s2|] == '-';
    if |s1| < |s2| {
      assert false;
    } else if |s2| < |s1| {
      assert false;
    }
    assert s1 == n1[p..p + |s1|] == n2[p..p + |s2|] == s2;
    assert t1 == n1[p + |s1| + 1..] == n2[p + |s2| + 1..] == t2;
  }

  /** Without that proviso two pairs share one cache entry: a session asking
      for ("a-b", "c") after one asked for ("a", "b-c") is handed the latter's
      translator. */
  lemma PipelineNameCollides()
    ensures ("a-b", "c") != ("a", "b-c")
    ensures PipelineName("a-b", "c") == PipelineName("a", "b-c")
  {
    assert ("a-b", "c").0 != ("a", "b-c").0;
    assert PipelineName("a-b", "c") == ModelPrefix + "a-b-c" == PipelineName("a", "b-c");
  }

  /** The process-wide cache object. `loadAttempts` is the model's record of
      the loader calls made so far (one per miss), so that "no load happens"
      can be stated. */
  class PipelineManager {
    var translationPipelines: Cache
    ghost var loadAttempts: seq<string>

    constructor ()
      ensures translationPipelines == map[] && loadAttempts == []
    {
      translationPipelines := map[];
      loadAttempts := [];
    }

    /** `get_translation_pipeline`: returns the cached translator for the pair,
        loading it on a miss; a failed load yields `None` and records nothing. */
    method GetTranslationPipeline(source: string, target: string,
                                  loader: (string, string) -> LoadOutcome)
      returns (translator: Option<Translator>)
      modifies this
      ensures (translator, translationPipelines)
              == Acquire(old(translationPipelines), source, target, loader)
      ensures loadAttempts == old(loadAttempts) +
                (if PipelineName(source, target) in old(translationPipelines) then []
                 else [PipelineName(source, target)])
    {
      var name := PipelineName(source, target);
      if name !in translationPipelines {
        loadAttempts := loadAttempts + [name];
        var outcome := loader(TaskName(source, target), name);
        match outcome
        case Loaded(h) =>
          translationPipelines := translationPipelines[name := h];
        case LoadFailed =>
          return None;
      }
      translator := Some(translationPipelines[name]);
    }
  }
}
