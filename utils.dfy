/**
 * The save-path rule of Lab3/utils/utils.py: `save_game` and `load_game`
 * put "Lab3/" in front of any path that does not already start with it.
 * The file system is a map from paths to contents.
 */
module Utils {
  import opened Wrappers

  const Lab3Prefix := "Lab3/"
  const DataPrefix := "data/"

  predicate StartsWith(s: string, prefix: string) {
    prefix <= s
  }

  /**
   * The path `save_game` and `load_game` open. Both arms of the inner
   * conditional prefix "Lab3/", so a "data/" path is treated like any other.
   */
  function NormalizePath(path: string): (r: string)
    ensures StartsWith(r, Lab3Prefix)
    ensures StartsWith(path, Lab3Prefix) ==> r == path
    ensures !StartsWith(path, Lab3Prefix) ==> r == Lab3Prefix + path
    ensures r[|r| - |path|..] == path
  {
    if !StartsWith(path, Lab3Prefix) then
      (if !StartsWith(path, DataPrefix) then Lab3Prefix + path else Lab3Prefix + path)
    else path
  }

  /** Normalising a normalised path changes nothing. */
  lemma NormalizeIdempotent(path: string)
    ensures NormalizePath(NormalizePath(path)) == NormalizePath(path)
  {
  }

  /** A "data/" path and its "Lab3/"-prefixed form name the same file. */
  lemma DataPathResolvesUnderLab3(rest: string)
    ensures NormalizePath(DataPrefix + rest) == Lab3Prefix + DataPrefix + rest
    ensures NormalizePath(Lab3Prefix + DataPrefix + rest) == NormalizePath(DataPrefix + rest)
  {
    assert (Lab3Prefix + DataPrefix + rest)[..|Lab3Prefix|] == Lab3Prefix;
    assert (DataPrefix + rest)[..|Lab3Prefix|] != Lab3Prefix by {
      assert (DataPrefix + rest)[0] == 'd';
    }
  }

  /** `save_game`: the file at the normalised path now holds `data`; other files are untouched. */
  function SaveGame<T>(files: map<string, T>, path: string, data: T): (r: map<string, T>)
    ensures NormalizePath(path) in r && r[NormalizePath(path)] == data
    ensures r.Keys == files.Keys + {NormalizePath(path)}
    ensures forall p :: p in files && p != NormalizePath(path) ==> r[p] == files[p]
  {
    files[NormalizePath(path) := data]
  }

  /** `load_game`: the contents of the file at the normalised path, `None` if there is no such file. */
  function LoadGame<T>(files: map<string, T>, path: string): (r: Option<T>)
    ensures r.Some? <==> NormalizePath(path) in files
    ensures r.Some? ==> r.value == files[NormalizePath(path)]
  {
    if NormalizePath(path) in files then Some(files[NormalizePath(path)]) else None
  }

  /** Loading from any path that normalises like the one saved to gives back what was saved. */
  lemma SaveThenLoad<T>(files: map<string, T>, saved: string, loaded: string, data: T)
    requires NormalizePath(saved) == NormalizePath(loaded)
    ensures LoadGame(SaveGame(files, saved, data), loaded) == Some(data)
  {
  }

  /** Saving to one file leaves what loads from a different file as it was. */
  lemma SaveLeavesOtherFiles<T>(files: map<string, T>, saved: string, loaded: string, data: T)
    requires NormalizePath(saved) != NormalizePath(loaded)
    ensures LoadGame(SaveGame(files, saved, data), loaded) == LoadGame(files, loaded)
  {
  }
}
