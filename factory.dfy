/** The registry of configured feed sources (src/source/factory.rs). */
module Factory {
  import opened Common

  /** The Mikan source's configuration, kept opaque: only its presence matters here. */
  datatype MikanConfig = MikanConfig(rsses: seq<string>, interval: nat)

  datatype Config = Config(mikan: Option<MikanConfig>)

  /** A shared source handle; `MikanSource::create` wraps its configuration. */
  datatype Source = MikanSource(config: MikanConfig)

  /** `SourceFactory`: an append-only list of sources. */
  class SourceFactory {
    var sources: seq<Source>

    /** `Default`: no sources. */
    constructor ()
      ensures sources == []
    {
      sources := [];
    }

    /** `register`: the source goes at the end; earlier entries keep their places. */
    method Register(source: Source)
      modifies this
      ensures sources == old(sources) + [source]
      ensures |sources| == |old(sources)| + 1
      ensures forall i :: 0 <= i < |old(sources)| ==> sources[i] == old(sources)[i]
    {
      sources := sources + [source];
    }

    /** `sources`: the registered sources, in registration order. */
    function Sources(): (r: seq<Source>)
      reads this
      ensures |r| == |sources| && forall i :: 0 <= i < |r| ==> r[i] == sources[i]
    {
      sources
    }
  }

  /** The free function `register`: adds the Mikan source exactly when it is configured. */
  method RegisterFromConfig(factory: SourceFactory, config: Config)
    modifies factory
    ensures config.mikan.None? ==> factory.sources == old(factory.sources)
    ensures config.mikan.Some? ==> factory.sources == old(factory.sources) + [MikanSource(config.mikan.value)]
  {
    if config.mikan.Some? {
      factory.Register(MikanSource(config.mikan.value));
    }
  }
}
