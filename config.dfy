/**
 * Request configurations: shallow maps from option names to values. `None`
 * stands for a `null` or non-object configuration, which contributes nothing.
 */
module Config {
  import opened Wrappers

  /** The keys and values an optional configuration contributes to a spread. */
  function Spread<V>(c: Option<map<string, V>>): map<string, V>
  {
    if c.Some? then c.value else map[]
  }

  /**
   * `combineWithDefaultConfig`: a fresh map holding every key of `config` with its
   * value, and every other key of `defaults` with the default value; no other key.
   */
  function Combine<V>(defaults: Option<map<string, V>>, config: Option<map<string, V>>): (r: map<string, V>)
    ensures forall k :: k in r <==> k in Spread(config) || k in Spread(defaults)
    ensures forall k :: k in Spread(config) ==> r[k] == Spread(config)[k]
    ensures forall k :: k in Spread(defaults) && k !in Spread(config) ==> r[k] == Spread(defaults)[k]
  {
    var newConfig := if defaults.Some? then defaults.value else map[];
    if config.Some? then newConfig + config.value else newConfig
  }

  /** Without a configuration the result is a copy of the defaults; with neither, it is empty. */
  lemma CombineWithoutConfig<V>(defaults: Option<map<string, V>>)
    ensures Combine(defaults, None) == Spread(defaults)
    ensures Combine<V>(None, None) == map[]
  {
  }

  /** Absent defaults contribute nothing. */
  lemma CombineWithoutDefaults<V>(config: map<string, V>)
    ensures Combine(None, Some(config)) == config
  {
  }

  /** Merging twice is cumulative: the later keys win, earlier keys they do not name survive. */
  lemma {:induction false} CombineCumulative<V>(d: Option<map<string, V>>, a: map<string, V>, b: map<string, V>)
    ensures Combine(Some(Combine(d, Some(a))), Some(b)) == Combine(d, Some(Combine(Some(a), Some(b))))
  {
    assert Spread(d) + a + b == Spread(d) + (a + b);
  }

  /** `{a:1}` then `{b:2}` gives `{a:1, b:2}`; `{a:1}` then `{a:2}` gives `{a:2}`. */
  lemma CumulativeExamples()
    ensures Combine(Some(Combine(None, Some(map["a" := 1]))), Some(map["b" := 2])) == map["a" := 1, "b" := 2]
    ensures Combine(Some(Combine(None, Some(map["a" := 1]))), Some(map["a" := 2])) == map["a" := 2]
  {
  }
}
