/**
 * An on-disk cache directory: file name (the hashed cache key) to file text.
 * `cache_file.exists()` is membership, `read_text` is lookup and `write_text`
 * replaces the entry.
 */
module Cache {

  class Store {
    var files: map<string, string>

    constructor (initial: map<string, string>)
      ensures files == initial
    {
      files := initial;
    }
  }
}
