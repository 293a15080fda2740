/**
 * Where a configuration lives between sessions: a directory that may or
 * may not exist and, inside it, a file that may or may not hold a saved
 * configuration. The text format (YAML or XML) is not modelled: the file
 * holds the configuration values themselves.
 */
module ConfigStore {
  import opened Wrappers

  class Store<T> {
    var directoryExists: bool
    var file: Option<T>

    constructor (directoryExists: bool, file: Option<T>)
      ensures this.directoryExists == directoryExists && this.file == file
    {
      this.directoryExists := directoryExists;
      this.file := file;
    }

    /** Directory.CreateDirectory followed by File.WriteAllText. */
    method Write(contents: T)
      modifies this
      ensures directoryExists && file == Some(contents)
    {
      directoryExists := true;
      file := Some(contents);
    }

    /** Directory.CreateDirectory on the configuration directory. */
    method EnsureDirectory()
      modifies this
      ensures directoryExists && file == old(file)
    {
      directoryExists := true;
    }
  }
}
