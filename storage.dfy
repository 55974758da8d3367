/** The Cloudflare storage adapter of storageAdapter.ts: a file path becomes a key of the KV
    store by turning every `/` into `:` and dropping one leading `:`. The store itself is given
    here as a map from keys to texts. */
module Storage {
  import opened Options
  import opened Strings

  /** `path.replace(/\//g, ':').replace(/^:/, '')`. */
  function NormalizePath(path: string): (r: string)
    ensures NoChar(r, '/')
  {
    var colons := ReplaceChar(path, '/', ':');
    if |colons| > 0 && colons[0] == ':' then colons[1..] else colons
  }

  /** A path whose first character is neither `/` nor `:` keeps its length, and its characters
      other than `/` stay where they are. */
  lemma NormalizePlain(path: string)
    requires |path| == 0 || (path[0] != '/' && path[0] != ':')
    ensures |NormalizePath(path)| == |path|
    ensures forall i :: 0 <= i < |path| ==> NormalizePath(path)[i] == if path[i] == '/' then ':' else path[i]
  {
  }

  /** A path starting with `/` or `:` loses exactly that first character, the rest mapped as
      above; so a key starts with `:` only when the path starts with two of `/` and `:`. */
  lemma NormalizeLeading(path: string)
    requires |path| > 0 && (path[0] == '/' || path[0] == ':')
    ensures |NormalizePath(path)| == |path| - 1
    ensures forall i :: 1 <= i < |path| ==> NormalizePath(path)[i - 1] == if path[i] == '/' then ':' else path[i]
    ensures |path| > 1 ==> (NormalizePath(path)[0] == ':' <==> path[1] == '/' || path[1] == ':')
  {
  }

  /** `readFile`: the text stored under the path's key, if any. */
  function ReadFile(kv: map<string, string>, path: string): Option<string>
  {
    var key := NormalizePath(path);
    if key in kv then Some(kv[key]) else None
  }

  /** `writeFile` of a text. */
  function WriteFile(kv: map<string, string>, path: string, data: string): map<string, string>
  {
    kv[NormalizePath(path) := data]
  }

  /** `exists`. */
  function Exists(kv: map<string, string>, path: string): bool
  {
    NormalizePath(path) in kv
  }

  /** The three operations use one key: a file exists exactly when it can be read, and a write
      is read back under every path with the same key and changes nothing under any other. */
  lemma SameKey(kv: map<string, string>, path: string, other: string, data: string)
    ensures Exists(kv, path) <==> ReadFile(kv, path).Some?
    ensures NormalizePath(other) == NormalizePath(path) ==> ReadFile(WriteFile(kv, path, data), other) == Some(data)
    ensures NormalizePath(other) != NormalizePath(path) ==> ReadFile(WriteFile(kv, path, data), other) == ReadFile(kv, other)
    ensures Exists(WriteFile(kv, path, data), path)
  {
  }

  /** An absolute path and the same path without its leading slash name the same file. */
  lemma LeadingSlashIgnored(path: string)
    requires |path| == 0 || (path[0] != '/' && path[0] != ':')
    ensures NormalizePath("/" + path) == NormalizePath(path)
  {
    var colons := ReplaceChar("/" + path, '/', ':');
    assert colons[1..] == ReplaceChar(path, '/', ':');
  }
}
