/**
 * The decompilation settings of the editor package
 * (Forge.Decompiler/DecompilationConfig.cs): the runtime settings plus
 * the DDS conversion switch.
 */
module ForgeConfig {
  import opened Wrappers
  import opened ConfigStore
  import RuntimeConfig

  datatype ConfigValues = ConfigValues(
    cleanUpXmb: bool,
    cleanUpEraDef: bool,
    convertToDds: bool,
    enableParallelProcessing: bool,
    parallelThreads: int)

  /** The property initialisers of a freshly constructed configuration. */
  const Defaults := ConfigValues(true, true, true, true, 0)

  /** The configuration Load returns for what the store holds. */
  function Loaded(stored: Option<ConfigValues>, processorCount: int): (r: ConfigValues)
    ensures stored.Some? ==> r == stored.value
    ensures stored.None? ==> r == Defaults.(parallelThreads := RuntimeConfig.DefaultThreadCount(processorCount))
    ensures stored.None? ==> r.parallelThreads >= 1
  {
    match stored
    case Some(c) => c
    case None => Defaults.(parallelThreads := RuntimeConfig.DefaultThreadCount(processorCount))
  }

  /** A second load returns what the first one returned. */
  lemma LoadTwice(stored: Option<ConfigValues>, processorCount: int, laterProcessorCount: int)
    ensures Loaded(Some(Loaded(stored, processorCount)), laterProcessorCount) == Loaded(stored, processorCount)
  {
  }

  class DecompilationConfig {
    var cleanUpXmb: bool
    var cleanUpEraDef: bool
    var convertToDds: bool
    var enableParallelProcessing: bool
    var parallelThreads: int

    function Values(): ConfigValues
      reads this
    {
      ConfigValues(cleanUpXmb, cleanUpEraDef, convertToDds, enableParallelProcessing, parallelThreads)
    }

    /** new DecompilationConfig(): every switch on, no explicit thread count. */
    constructor ()
      ensures Values() == Defaults
    {
      cleanUpXmb := true;
      cleanUpEraDef := true;
      convertToDds := true;
      enableParallelProcessing := true;
      parallelThreads := 0;
    }

    /** Save: the store now holds this configuration, which is left as it was. */
    method Save(store: Store<ConfigValues>)
      modifies store
      ensures store.directoryExists && store.file == Some(Values())
    {
      store.Write(Values());
    }
  }

  /** Load: the stored configuration, or the saved defaults. */
  method Load(store: Store<ConfigValues>, processorCount: int) returns (config: DecompilationConfig)
    modifies store
    ensures fresh(config)
    ensures config.Values() == Loaded(old(store.file), processorCount)
    ensures store.directoryExists && store.file == Some(config.Values())
    ensures old(store.file).Some? ==> store.file == old(store.file)
  {
    store.EnsureDirectory();
    if store.file.Some? {
      var stored := store.file.value;
      config := new DecompilationConfig();
      config.cleanUpXmb, config.cleanUpEraDef, config.convertToDds := stored.cleanUpXmb, stored.cleanUpEraDef, stored.convertToDds;
      config.enableParallelProcessing, config.parallelThreads := stored.enableParallelProcessing, stored.parallelThreads;
      return;
    }
    config := new DecompilationConfig();
    config.parallelThreads := RuntimeConfig.DefaultThreadCount(processorCount);
    config.Save(store);
  }
}
