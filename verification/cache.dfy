/** The content-addressed file cache (`CacheConfig`, `FileCache`).

    A generation request's parameter record is hashed to a UUID-shaped key; the
    artifact is stored at `<root>/<key[:8]>/<key>`. The disk is the map `files`
    from path to bytes plus the set `dirs` of directories that exist.
    `uuid5(NAMESPACE_OID, str(config))` is a parameter of the model: any
    deterministic function from records to UUIDs. */
module Cache {
  import opened Wrappers
  import opened Uuids
  import Prompts

  /** `prompt: Union[str, List[str]]`. */
  datatype Prompt = Text(text: string) | Many(texts: seq<string>)

  /** `attention_slice: Optional[Union[str, int]]`. */
  datatype AttentionSlice = SliceName(name: string) | SliceSize(size: int)

  /** The parameter record of a generation request; every field is part of the
      key because the key hashes `str(self)`, which lists every field. */
  datatype CacheConfig = CacheConfig(
    prompt: Prompt,
    numImages: int,
    mode: string,
    height: Option<int>,
    width: Option<int>,
    numInferenceSteps: Option<int>,
    guidanceScale: Option<real>,
    eta: Option<real>,
    outputType: Option<string>,
    strength: real,
    seed: Option<int>,
    returnIntermediates: bool,
    maskImage: Option<string>,
    attentionSlice: Option<AttentionSlice>,
    imageWidth: Option<int>,
    imageHeight: Option<int>)

  /** `get_cache_key`: the text of the record's UUID. */
  function CacheKey(uuid5: CacheConfig -> Uuid, c: CacheConfig): string {
    UuidText(uuid5(c))
  }

  /** `os.path.join(a, b)` on POSIX: an absolute `b` replaces `a`, otherwise a
      single `/` separates them unless `a` is empty or already ends in one. */
  function Join(a: string, b: string): (r: string)
    ensures |b| > 0 && b[0] == '/' ==> r == b
  {
    if |b| > 0 && b[0] == '/' then b
    else if a == [] || a[|a| - 1] == '/' then a + b
    else a + "/" + b
  }

  /** `_get_path_from_key`: the shard directory named by the key's first 8 characters. */
  function ShardDir(root: string, key: string): string {
    Join(root, Prompts.SliceTo(key, 8))
  }

  /** Where the artifact for `key` lives. */
  function StoragePath(root: string, key: string): string {
    Join(ShardDir(root, key), key)
  }

  /** `path or "cache"`: no path, or an empty one, means `"cache"`. */
  function CacheRoot(path: Option<string>): (root: string)
    ensures path == None || path == Some("") ==> root == "cache"
    ensures path.Some? && path.value != "" ==> root == path.value
    ensures root != ""
  {
    if path.None? || path.value == "" then "cache" else path.value
  }

  /** The root followed by a separator (nothing added when it is empty or already ends in `/`). */
  function RootPrefix(root: string): string {
    if root == [] || root[|root| - 1] == '/' then root else root + "/"
  }

  /** For a UUID key the shard directory is the root joined with the first 8
      hex digits (the first four bytes), and the file sits one level below. */
  lemma StoragePathShape(root: string, u: Uuid)
    ensures ShardDir(root, UuidText(u)) == RootPrefix(root) + Hex(u[..4])
    ensures StoragePath(root, UuidText(u)) == RootPrefix(root) + Hex(u[..4]) + "/" + UuidText(u)
  {
    var k := UuidText(u);
    UuidTextShape(u);
    assert Prompts.SliceTo(k, 8) == k[..8];
    var shard := RootPrefix(root) + k[..8];
    assert shard[|shard| - 1] == k[7];
  }

  /** Records whose UUIDs differ never share a cache file. */
  lemma StoragePathInjective(root: string, u: Uuid, v: Uuid)
    requires StoragePath(root, UuidText(u)) == StoragePath(root, UuidText(v))
    ensures u == v
  {
    StoragePathShape(root, u);
    StoragePathShape(root, v);
    UuidTextShape(u);
    UuidTextShape(v);
    var p := StoragePath(root, UuidText(u));
    assert p[|p| - 36..] == UuidText(u);
    assert p[|p| - 36..] == UuidText(v);
    UuidTextInjective(u, v);
  }

  /** What `get` finds on disk for a key: the file's bytes, or nothing. */
  function Fetch(files: map<string, seq<byte>>, root: string, key: string): Option<seq<byte>> {
    var path := StoragePath(root, key);
    if path in files then Some(files[path]) else None
  }

  /** The disk after `set` writes `content` for a key (whole-file write). */
  function Store(files: map<string, seq<byte>>, root: string, key: string, content: seq<byte>): map<string, seq<byte>> {
    files[StoragePath(root, key) := content]
  }

  /** A fetch after a store under the same key returns exactly the stored
      bytes; a fetch under any other UUID key sees the disk as it was. */
  lemma FetchAfterStore(files: map<string, seq<byte>>, root: string, u: Uuid, v: Uuid, content: seq<byte>)
    ensures Fetch(Store(files, root, UuidText(u), content), root, UuidText(u)) == Some(content)
    ensures u != v ==> Fetch(Store(files, root, UuidText(u), content), root, UuidText(v))
                       == Fetch(files, root, UuidText(v))
  {
    if u != v && StoragePath(root, UuidText(u)) == StoragePath(root, UuidText(v)) {
      StoragePathInjective(root, u, v);
    }
  }

  /** The prompt under which `set` hashes, as written: `data["prompt"][0]`.
      On a list that is its first string; on a string it is its first
      character; an empty one raises IndexError. */
  function PromptForKeyAsWritten(p: Prompt): (r: Result<Prompt>)
    ensures r.Err? <==> (p.Many? && p.texts == []) || (p.Text? && p.text == [])
    ensures r.Err? ==> r.failure == IndexError
    ensures r.Ok? && p.Text? ==> r.value.Text? && |r.value.text| == 1 && r.value.text[0] == p.text[0]
  {
    match p
    case Many(texts) => if texts == [] then Err(IndexError) else Ok(Text(texts[0]))
    case Text(s) => if s == [] then Err(IndexError) else Ok(Text(s[..1]))
  }

  /** The prompt under which `set` hashes in this model: the list that the
      diffusion pipeline leaves behind is folded back to its first string, and a
      string prompt is kept whole, so that `set` and `get` hash the same record. */
  function PromptForKey(p: Prompt): (r: Result<Prompt>)
    ensures r.Ok? ==> r.value.Text?
    ensures p.Text? ==> r == Ok(p)
  {
    match p
    case Many(texts) => if texts == [] then Err(IndexError) else Ok(Text(texts[0]))
    case Text(_) => Ok(p)
  }

  /** `[prompt] * n`: the pipeline's list of `n` copies of the prompt. */
  function Repeat(s: string, n: int): (r: seq<string>)
    ensures |r| == if n > 0 then n else 0
    ensures forall i :: 0 <= i < |r| ==> r[i] == s
  {
    if n <= 0 then [] else [s] + Repeat(s, n - 1)
  }

  /** Folding back the pipeline's list gives the original string prompt, so a
      record stored after generation is found again under its original key. */
  lemma PromptForKeyUndoesRepeat(s: string, n: int)
    requires n >= 1
    ensures PromptForKey(Many(Repeat(s, n))) == Ok(Text(s))
    ensures PromptForKeyAsWritten(Many(Repeat(s, n))) == Ok(Text(s))
  {
  }

  /** The two agree on every list prompt; they part only on a string prompt. */
  lemma PromptForKeyAgreesOnLists(texts: seq<string>)
    ensures PromptForKey(Many(texts)) == PromptForKeyAsWritten(Many(texts))
  {
  }

  /** As written, a string prompt of two or more characters is hashed as its
      first character alone, so `set` files the artifact under a different key
      from the one `get` computes for the same record: the lookup after the
      store misses whenever the two records' UUIDs differ. */
  lemma StringPromptStoredUnderFirstCharacter(files: map<string, seq<byte>>, root: string,
                                              uuid5: CacheConfig -> Uuid, c: CacheConfig, content: seq<byte>)
    requires c.prompt.Text? && |c.prompt.text| >= 2
    requires uuid5(c.(prompt := Text(c.prompt.text[..1]))) != uuid5(c)
    ensures PromptForKeyAsWritten(c.prompt) == Ok(Text(c.prompt.text[..1]))
    ensures var stored := c.(prompt := PromptForKeyAsWritten(c.prompt).value);
      Fetch(Store(files, root, CacheKey(uuid5, stored), content), root, CacheKey(uuid5, c))
      == Fetch(files, root, CacheKey(uuid5, c))
  {
    var stored := c.(prompt := Text(c.prompt.text[..1]));
    FetchAfterStore(files, root, uuid5(stored), uuid5(c), content);
  }

  class FileCache {
    const root: string
    /** `uuid.uuid5(uuid.NAMESPACE_OID, str(config))`. */
    const uuid5: CacheConfig -> Uuid
    /** The disk: file contents by path, and the directories that exist. */
    var files: map<string, seq<byte>>
    var dirs: set<string>

    /** `FileCache(path)`; `disk` and `dirs` are what is already on disk. */
    constructor (path: Option<string>, uuid5: CacheConfig -> Uuid,
                 disk: map<string, seq<byte>>, dirs: set<string>)
      ensures root == CacheRoot(path) && this.uuid5 == uuid5
      ensures files == disk && this.dirs == dirs
    {
      root := CacheRoot(path);
      this.uuid5 := uuid5;
      files := disk;
      this.dirs := dirs;
    }

    /** The cached bytes for a record, as `get` would find them. */
    ghost function Lookup(c: CacheConfig): Option<seq<byte>>
      reads this
    {
      Fetch(files, root, CacheKey(uuid5, c))
    }

    /** `get`: the bytes stored for the record's key, or None (a miss is not an error). */
    method Get(c: CacheConfig) returns (r: Option<seq<byte>>)
      ensures r.Some? <==> StoragePath(root, CacheKey(uuid5, c)) in files
      ensures r.Some? ==> r.value == files[StoragePath(root, CacheKey(uuid5, c))]
    {
      var key := CacheKey(uuid5, c);
      var path := Join(ShardDir(root, key), key);
      if path in files {
        r := Some(files[path]);
      } else {
        r := None;
      }
    }

    /** `set`: rewrite the record's prompt in place (returned as `stored`, the
        caller's record afterwards), create the shard directory if needed and
        write `content` as the whole file for the rewritten record's key. */
    method Set(c: CacheConfig, content: seq<byte>) returns (r: Result<CacheConfig>)
      modifies this
      ensures PromptForKey(c.prompt).Err? ==> r == Err(IndexError) && files == old(files) && dirs == old(dirs)
      ensures PromptForKey(c.prompt).Ok? ==> r == Ok(c.(prompt := PromptForKey(c.prompt).value))
      ensures r.Ok? ==> var key := CacheKey(uuid5, r.value);
        && files == Store(old(files), root, key, content)
        && dirs == old(dirs) + {ShardDir(root, key)}
        && Lookup(r.value) == Some(content)
        && (forall d :: uuid5(d) != uuid5(r.value) ==> Lookup(d) == old(Lookup(d)))
    {
      var p := PromptForKey(c.prompt);
      if p.Err? {
        return Err(IndexError);
      }
      var stored := c.(prompt := p.value);
      var key := CacheKey(uuid5, stored);
      var shard := ShardDir(root, key);
      dirs := dirs + {shard};
      files := files[Join(shard, key) := content];
      r := Ok(stored);
      forall d | uuid5(d) != uuid5(stored)
        ensures Lookup(d) == old(Lookup(d))
      {
        FetchAfterStore(old(files), root, uuid5(stored), uuid5(d), content);
      }
      FetchAfterStore(old(files), root, uuid5(stored), uuid5(stored), content);
    }
  }
}
