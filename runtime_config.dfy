/**
 * The decompilation settings of the runtime package
 * (Runtime/Decompiler/DecompilationConfig.cs): three switches and a thread
 * count, loaded from the store or created with defaults and saved.
 */
module RuntimeConfig {
  import opened Wrappers
  import opened ConfigStore

  datatype ConfigValues = ConfigValues(
    cleanUpXmb: bool,
    cleanUpEraDef: bool,
    enableParallelProcessing: bool,
    parallelThreads: int)

  /** The property initialisers of a freshly constructed configuration. */
  const Defaults := ConfigValues(true, true, true, 0)

  /** GetDefaultThreadCount: half the processors, but at least one. */
  function DefaultThreadCount(processorCount: int): (r: int)
    ensures r >= 1 && r >= processorCount / 2
    ensures r == 1 || r == processorCount / 2
  {
    if processorCount / 2 > 1 then processorCount / 2 else 1
  }

  /** The configuration LoadConfig returns for what the store holds. */
  function Loaded(stored: Option<ConfigValues>, processorCount: int): (r: ConfigValues)
    ensures stored.Some? ==> r == stored.value
    ensures stored.None? ==> r == Defaults.(parallelThreads := DefaultThreadCount(processorCount))
    ensures stored.None? ==> r.parallelThreads >= 1
  {
    match stored
    case Some(c) => c
    case None => Defaults.(parallelThreads := DefaultThreadCount(processorCount))
  }

  /**
   * Loading saves what it returns, so a second load reads the file and
   * returns the same configuration, whatever the processor count is then.
   */
  lemma LoadTwice(stored: Option<ConfigValues>, processorCount: int, laterProcessorCount: int)
    ensures Loaded(Some(Loaded(stored, processorCount)), laterProcessorCount) == Loaded(stored, processorCount)
  {
  }

  class DecompilationConfig {
    var cleanUpXmb: bool
    var cleanUpEraDef: bool
    var enableParallelProcessing: bool
    var parallelThreads: int

    function Values(): ConfigValues
      reads this
    {
      ConfigValues(cleanUpXmb, cleanUpEraDef, enableParallelProcessing, parallelThreads)
    }

    /** new DecompilationConfig(): every switch on, no explicit thread count. */
    constructor ()
      ensures Values() == Defaults
    {
      cleanUpXmb := true;
      cleanUpEraDef := true;
      enableParallelProcessing := true;
      parallelThreads := 0;
    }

    /** SaveConfig: the store now holds this configuration, which is left as it was. */
    method SaveConfig(store: Store<ConfigValues>)
      modifies store
      ensures store.directoryExists && store.file == Some(Values())
    {
      store.Write(Values());
    }
  }

  /**
   * LoadConfig: the stored configuration when there is one (nothing is
   * written then); otherwise the defaults with the default thread count,
   * which are saved before they are returned.
   */
  method LoadConfig(store: Store<ConfigValues>, processorCount: int) returns (config: DecompilationConfig)
    modifies store
    ensures fresh(config)
    ensures config.Values() == Loaded(old(store.file), processorCount)
    ensures store.directoryExists && store.file == Some(config.Values())
    ensures old(store.file).Some? ==> store.file == old(store.file)
  {
    store.EnsureDirectory();
    if store.file.Some? {
      var stored := store.file.value;
      config := new DecompilationConfig();
      config.cleanUpXmb, config.cleanUpEraDef := stored.cleanUpXmb, stored.cleanUpEraDef;
      config.enableParallelProcessing, config.parallelThreads := stored.enableParallelProcessing, stored.parallelThreads;
      return;
    }
    config := new DecompilationConfig();
    config.parallelThreads := DefaultThreadCount(processorCount);
    config.SaveConfig(store);
  }
}
