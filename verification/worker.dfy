/** A worker process (`consumer.py`): take a job from the shared input queue,
    answer it from the cache or from the image engine, and put the result
    message on the shared output queue.

    The image engine is a `render` function from parameter records to image
    bytes (None when the engine raises), plus a flag saying whether it
    replaces a string prompt by the list `[prompt] * num_images` in the
    caller's record, as the diffusion-pipeline engine does and the stand-in
    engine does not. Image decoding, resizing and PNG encoding are part of
    `render`. */
module Worker {
  import opened Wrappers
  import opened Uuids
  import opened Cache
  import opened Messages
  import opened ProcessQueues

  /** The caller's record after the engine has run on it. */
  function Prepared(c: CacheConfig, listsPrompt: bool): (p: CacheConfig)
    ensures p.(prompt := c.prompt) == c
  {
    if listsPrompt && c.prompt.Text? then c.(prompt := Many(Repeat(c.prompt.text, c.numImages))) else c
  }

  /** The record `set` files the image under once the engine has run: the
      engine's record with its prompt folded back (IndexError when there is
      nothing to fold back). */
  function FiledUnder(c: CacheConfig, listsPrompt: bool): (r: Result<CacheConfig>)
    ensures r.Err? ==> r.failure == IndexError
    ensures r.Ok? ==> r.value.prompt.Text?
  {
    var p := Prepared(c, listsPrompt);
    match PromptForKey(p.prompt)
    case Err(_) => Err(IndexError)
    case Ok(q) => Ok(p.(prompt := q))
  }

  /** For a string prompt, the record `set` files the image under is the
      record `get` looked up, unless the engine asked for no images at all, in
      which case `set` raises. */
  lemma StoredUnderLookedUpRecord(c: CacheConfig, listsPrompt: bool)
    requires c.prompt.Text?
    ensures FiledUnder(c, listsPrompt).Ok? <==> !listsPrompt || c.numImages >= 1
    ensures FiledUnder(c, listsPrompt).Ok? ==> FiledUnder(c, listsPrompt).value == c
  {
    if listsPrompt && c.numImages >= 1 {
      PromptForKeyUndoesRepeat(c.prompt.text, c.numImages);
    }
  }

  class Engine {
    /** The image the engine produces for a record; None when it raises. */
    const render: CacheConfig -> Option<seq<byte>>
    /** Whether `generate` rewrites a string prompt into a list. */
    const listsPrompt: bool
    /** How many times `generate` has been called. */
    var calls: nat

    constructor (render: CacheConfig -> Option<seq<byte>>, listsPrompt: bool)
      ensures this.render == render && this.listsPrompt == listsPrompt && calls == 0
    {
      this.render := render;
      this.listsPrompt := listsPrompt;
      calls := 0;
    }

    /** `generator.generate(prompt_config)`: the image and the caller's record
        as the engine leaves it. */
    method Generate(c: CacheConfig) returns (image: Option<seq<byte>>, after: CacheConfig)
      modifies this
      ensures calls == old(calls) + 1
      ensures image == render(c)
      ensures after == Prepared(c, listsPrompt)
    {
      calls := calls + 1;
      after := Prepared(c, listsPrompt);
      image := render(c);
    }
  }

  /** What a worker is made of: the cache's root and key function, and the
      engine. */
  datatype Setting = Setting(
    root: string,
    uuid5: CacheConfig -> Uuid,
    render: CacheConfig -> Option<seq<byte>>,
    listsPrompt: bool)

  function SettingOf(cache: FileCache, engine: Engine): Setting {
    Setting(cache.root, cache.uuid5, engine.render, engine.listsPrompt)
  }

  /** What `get` finds on the disk `files` for a record. */
  function Found(s: Setting, files: map<string, seq<byte>>, c: CacheConfig): Option<seq<byte>> {
    Fetch(files, s.root, CacheKey(s.uuid5, c))
  }

  /** The answer to one job and the disk it leaves. */
  datatype Served = Served(answer: Result<seq<byte>>, files: map<string, seq<byte>>)

  /** `generate(generated_image, generator)` on the disk `files`. A job
      without a record fails in `get` (`None.__dict__`). On a hit the stored
      bytes are the answer, except that the log line calls `replace` on the
      prompt, which a list prompt does not have. On a miss the engine runs; its
      failure, or `set`'s, is the answer; otherwise the image is stored under
      the record the engine left behind and is the answer. */
  function Serve(s: Setting, files: map<string, seq<byte>>, job: WsData): Served {
    match job.promptConfig
    case None => Served(Err(AttributeError), files)
    case Some(c) =>
      if Found(s, files, c).Some? then
        Served(if c.prompt.Text? then Ok(Found(s, files, c).value) else Err(AttributeError), files)
      else if s.render(c).None? then Served(Err(OtherError), files)
      else match FiledUnder(c, s.listsPrompt)
        case Err(f) => Served(Err(f), files)
        case Ok(d) => Served(Ok(s.render(c).value), Store(files, s.root, CacheKey(s.uuid5, d), s.render(c).value))
  }

  /** An answer is either the bytes already on disk for the job's record or
      the engine's image for it, and the disk changes only when a miss
      succeeds. */
  lemma ServeAnswer(s: Setting, files: map<string, seq<byte>>, job: WsData)
    ensures var r := Serve(s, files, job); r.answer.Ok? ==>
      && job.promptConfig.Some?
      && (Found(s, files, job.promptConfig.value).Some? ==>
            r.answer.value == Found(s, files, job.promptConfig.value).value && r.files == files)
      && (Found(s, files, job.promptConfig.value).None? ==>
            s.render(job.promptConfig.value) == Some(r.answer.value))
    ensures var r := Serve(s, files, job); r.files != files ==>
      r.answer.Ok? && Found(s, files, job.promptConfig.value).None?
  {
  }

  /** A miss succeeds exactly when the engine renders an image and `set`
      accepts the record the engine left behind. */
  lemma ServeMiss(s: Setting, files: map<string, seq<byte>>, job: WsData)
    requires job.promptConfig.Some? && Found(s, files, job.promptConfig.value).None?
    ensures Serve(s, files, job).answer.Ok? <==>
      s.render(job.promptConfig.value).Some? && FiledUnder(job.promptConfig.value, s.listsPrompt).Ok?
  {
  }

  /** The cache does its job: once a job with a string prompt was answered,
      answering it again is a hit that gives the same image and leaves the
      disk alone. */
  lemma ServeTwice(s: Setting, files: map<string, seq<byte>>, job: WsData)
    requires job.promptConfig.Some? && job.promptConfig.value.prompt.Text?
    ensures var first := Serve(s, files, job);
      first.answer.Ok? ==> Serve(s, first.files, job) == first
  {
    var c := job.promptConfig.value;
    var first := Serve(s, files, job);
    if first.answer.Ok? && Found(s, files, c).None? {
      StoredUnderLookedUpRecord(c, s.listsPrompt);
      FetchAfterStore(files, s.root, s.uuid5(c), s.uuid5(c), first.answer.value);
      assert Found(s, first.files, c) == Some(first.answer.value);
    }
  }

  /** Whether `generate` runs the engine for `job` on this disk: the job has a
      record and nothing is stored for it. */
  predicate Misses(s: Setting, files: map<string, seq<byte>>, job: WsData) {
    job.promptConfig.Some? && Found(s, files, job.promptConfig.value).None?
  }

  /** The shard directory `generate` creates for `job`: the one of the key the
      image is filed under after a successful miss, none otherwise. */
  function NewDirs(s: Setting, files: map<string, seq<byte>>, job: WsData): (r: set<string>)
    ensures r != {} ==> Misses(s, files, job) && Serve(s, files, job).answer.Ok?
    ensures Misses(s, files, job) && Serve(s, files, job).answer.Ok? ==> |r| == 1
  {
    if Misses(s, files, job) && Serve(s, files, job).answer.Ok?
       && FiledUnder(job.promptConfig.value, s.listsPrompt).Ok?
    then {ShardDir(s.root, CacheKey(s.uuid5, FiledUnder(job.promptConfig.value, s.listsPrompt).value))}
    else {}
  }

  /** `generate` for one job: the answer and the new disk are `Serve` of the
      old disk; the engine runs exactly on a miss, and a stored image's shard
      directory then exists. */
  method Generate(job: WsData, cache: FileCache, engine: Engine) returns (r: Result<seq<byte>>)
    modifies cache, engine
    ensures Served(r, cache.files) == Serve(SettingOf(cache, engine), old(cache.files), job)
    ensures engine.calls == old(engine.calls) + (if Misses(SettingOf(cache, engine), old(cache.files), job) then 1 else 0)
    ensures cache.dirs == old(cache.dirs) + NewDirs(SettingOf(cache, engine), old(cache.files), job)
  {
    if job.promptConfig.None? {
      return Err(AttributeError);
    }
    var c := job.promptConfig.value;
    var hit := cache.Get(c);
    if hit.Some? {
      if c.prompt.Many? {
        return Err(AttributeError);
      }
      return Ok(hit.value);
    }
    var image, after := engine.Generate(c);
    if image.None? {
      return Err(OtherError);
    }
    var stored := cache.Set(after, image.value);
    if stored.Err? {
      return Err(stored.failure);
    }
    r := Ok(image.value);
  }

  /** How one pass of the worker loop ends. */
  datatype StepOutcome = Idle | Emitted(image: seq<byte>) | Stopped | Crashed(failure: Failure)

  /** One pass of the `consumer` loop. The blocking `get` on an empty queue is
      `Idle` (the worker waits); an interrupt before the `get` is `Stopped`.
      Otherwise the oldest job is answered as `Serve` says: its result message
      goes on the output queue, or the failure ends the worker. */
  method ConsumerStep(inQ: ProcessQueue<WsData>, outQ: ProcessQueue<UpdateRequest>,
                      cache: FileCache, engine: Engine, now: real, interrupted: bool)
    returns (outcome: StepOutcome)
    modifies inQ, outQ, cache, engine
    ensures interrupted ==> outcome == Stopped
    ensures interrupted || old(inQ.items) == [] ==>
      && inQ.items == old(inQ.items) && outQ.items == old(outQ.items)
      && engine.calls == old(engine.calls) && cache.files == old(cache.files)
      && cache.dirs == old(cache.dirs)
    ensures !interrupted && old(inQ.items) == [] ==> outcome == Idle
    ensures !interrupted && old(inQ.items) != [] ==>
      var job := old(inQ.items)[0];
      var one := Serve(SettingOf(cache, engine), old(cache.files), job);
      && inQ.items == old(inQ.items)[1..]
      && cache.files == one.files
      && outcome == (if one.answer.Ok? then Emitted(one.answer.value) else Crashed(one.answer.failure))
      && outQ.items == old(outQ.items) + (if one.answer.Ok? then [Envelope(job, one.answer.value, now)] else [])
      && engine.calls == old(engine.calls) + (if Misses(SettingOf(cache, engine), old(cache.files), job) then 1 else 0)
      && cache.dirs == old(cache.dirs) + NewDirs(SettingOf(cache, engine), old(cache.files), job)
  {
    if interrupted {
      return Stopped;
    }
    var item := inQ.GetNowait();
    if item.None? {
      return Idle;
    }
    var image := Generate(item.value, cache, engine);
    if image.Err? {
      return Crashed(image.failure);
    }
    outQ.Put(Envelope(item.value, image.value, now));
    outcome := Emitted(image.value);
  }

  /** The result messages for `jobs`, one per job, in order. */
  function Envelopes(jobs: seq<WsData>, images: seq<seq<byte>>, now: real): (r: seq<UpdateRequest>)
    requires |jobs| == |images|
    ensures |r| == |jobs|
  {
    if jobs == [] then [] else [Envelope(jobs[0], images[0], now)] + Envelopes(jobs[1..], images[1..], now)
  }

  /** The `k`-th result message is the one for the `k`-th job and image. */
  lemma {:induction false} EnvelopesKeyed(jobs: seq<WsData>, images: seq<seq<byte>>, now: real)
    requires |jobs| == |images|
    ensures forall k :: 0 <= k < |jobs| ==> Envelopes(jobs, images, now)[k] == Envelope(jobs[k], images[k], now)
    decreases |jobs|
  {
    if jobs != [] {
      EnvelopesKeyed(jobs[1..], images[1..], now);
    }
  }

  lemma {:induction false} EnvelopesSnoc(jobs: seq<WsData>, images: seq<seq<byte>>, job: WsData, image: seq<byte>, now: real)
    requires |jobs| == |images|
    ensures Envelopes(jobs + [job], images + [image], now) == Envelopes(jobs, images, now) + [Envelope(job, image, now)]
    decreases |jobs|
  {
    if jobs != [] {
      EnvelopesSnoc(jobs[1..], images[1..], job, image, now);
      assert (jobs + [job])[1..] == jobs[1..] + [job];
      assert (images + [image])[1..] == images[1..] + [image];
    }
  }

  /** The outcome of answering `jobs` in order until one fails. */
  datatype Run = Run(images: seq<seq<byte>>, failure: Option<Failure>, files: map<string, seq<byte>>)

  /** Answering `jobs` in order on the disk `files`, stopping at the first
      failure: the images of the jobs answered, the failure, and the disk. */
  function ServeAll(s: Setting, files: map<string, seq<byte>>, jobs: seq<WsData>): (r: Run)
    ensures r.failure.None? ==> |r.images| == |jobs|
    ensures r.failure.Some? ==> |r.images| < |jobs|
    decreases |jobs|
  {
    if jobs == [] then Run([], None, files)
    else
      var first := Serve(s, files, jobs[0]);
      if first.answer.Err? then Run([], Some(first.answer.failure), first.files)
      else
        var rest := ServeAll(s, first.files, jobs[1..]);
        Run([first.answer.value] + rest.images, rest.failure, rest.files)
  }

  /** Answering one more job after a run without failure extends the run by
      that job's answer. */
  lemma {:induction false} ServeAllSnoc(s: Setting, files: map<string, seq<byte>>, jobs: seq<WsData>, job: WsData)
    requires ServeAll(s, files, jobs).failure.None?
    ensures var run := ServeAll(s, files, jobs);
      var one := Serve(s, run.files, job);
      ServeAll(s, files, jobs + [job]) ==
        if one.answer.Ok? then Run(run.images + [one.answer.value], None, one.files)
        else Run(run.images, Some(one.answer.failure), one.files)
    decreases |jobs|
  {
    if jobs != [] {
      var first := Serve(s, files, jobs[0]);
      assert (jobs + [job])[1..] == jobs[1..] + [job];
      ServeAllSnoc(s, first.files, jobs[1..], job);
    }
  }

  lemma MoveFirst<T>(a: seq<T>, b: seq<T>)
    requires b != []
    ensures a + b == (a + [b[0]]) + b[1..]
  {
    assert b == [b[0]] + b[1..];
  }

  lemma WholePrefix<T>(a: seq<T>, n: int)
    requires n == |a|
    ensures a[..n] == a
  {
  }

  /** Answering one more job after a run without failure: the run and its
      result messages grow by that job's answer. */
  lemma RunGrows(s: Setting, files0: map<string, seq<byte>>, taken: seq<WsData>, images: seq<seq<byte>>,
                 files: map<string, seq<byte>>, job: WsData, now: real)
    requires ServeAll(s, files0, taken) == Run(images, None, files)
    ensures var one := Serve(s, files, job);
      var images' := images + (if one.answer.Ok? then [one.answer.value] else []);
      && ServeAll(s, files0, taken + [job]) == Run(images', if one.answer.Ok? then None else Some(one.answer.failure), one.files)
      && Envelopes((taken + [job])[..|images'|], images', now) ==
           Envelopes(taken, images, now) + (if one.answer.Ok? then [Envelope(job, one.answer.value, now)] else [])
  {
    ServeAllSnoc(s, files0, taken, job);
    var one := Serve(s, files, job);
    if one.answer.Ok? {
      EnvelopesSnoc(taken, images, job, one.answer.value, now);
      assert (taken + [job])[..|images| + 1] == taken + [job];
    } else {
      assert (taken + [job])[..|images|] == taken;
    }
  }

  /** One pass of the loop of `RunConsumer`, stated against the run so far:
      of the queue `queue0` the jobs `taken` were answered on the disk
      `files0`, giving `images`, the current disk, and the messages after
      `out0`. The pass extends that run by one job, unless the queue is
      empty. */
  method ConsumeNext(inQ: ProcessQueue<WsData>, outQ: ProcessQueue<UpdateRequest>,
                     cache: FileCache, engine: Engine, now: real,
                     ghost queue0: seq<WsData>, ghost out0: seq<UpdateRequest>, ghost files0: map<string, seq<byte>>,
                     ghost taken: seq<WsData>, ghost images: seq<seq<byte>>)
    returns (outcome: StepOutcome, ghost taken': seq<WsData>, ghost images': seq<seq<byte>>)
    requires queue0 == taken + inQ.items
    requires ServeAll(SettingOf(cache, engine), files0, taken) == Run(images, None, cache.files)
    requires outQ.items == out0 + Envelopes(taken, images, now)
    modifies inQ, outQ, cache, engine
    ensures outcome == Idle || outcome.Emitted? || outcome.Crashed?
    ensures outcome == Idle ==> inQ.items == []
    ensures outcome != Idle ==> |inQ.items| < old(|inQ.items|)
    ensures queue0 == taken' + inQ.items
    ensures ServeAll(SettingOf(cache, engine), files0, taken') ==
      Run(images', if outcome.Crashed? then Some(outcome.failure) else None, cache.files)
    ensures outQ.items == out0 + Envelopes(taken'[..|images'|], images', now)
  {
    ghost var before := inQ.items;
    ghost var disk := cache.files;
    outcome := ConsumerStep(inQ, outQ, cache, engine, now, false);
    taken', images' := taken, images;
    if outcome != Idle {
      RunGrows(SettingOf(cache, engine), files0, taken, images, disk, before[0], now);
      MoveFirst(taken, before);
      taken' := taken + [before[0]];
      if outcome.Emitted? {
        images' := images + [outcome.image];
      }
    } else {
      WholePrefix(taken, |images|);
    }
  }

  /** The `consumer` loop run until the input queue is empty or a job fails:
      the jobs taken are a prefix of the queue, answered in order as
      `ServeAll` says, and each one answered has exactly one result message,
      holding its own image and keyed by its own id, in queue order. */
  method RunConsumer(inQ: ProcessQueue<WsData>, outQ: ProcessQueue<UpdateRequest>,
                     cache: FileCache, engine: Engine, now: real)
    returns (outcome: StepOutcome, ghost taken: seq<WsData>)
    modifies inQ, outQ, cache, engine
    ensures outcome == Idle || outcome.Crashed?
    ensures old(inQ.items) == taken + inQ.items
    ensures var run := ServeAll(SettingOf(cache, engine), old(cache.files), taken);
      && cache.files == run.files
      && (outcome == Idle ==> inQ.items == [] && run.failure == None)
      && (outcome.Crashed? ==> run.failure == Some(outcome.failure))
      && outQ.items == old(outQ.items) + Envelopes(taken[..|run.images|], run.images, now)
  {
    ghost var images: seq<seq<byte>> := [];
    taken := [];
    outcome := Emitted([]);
    while outcome.Emitted?
      invariant outcome == Idle || outcome.Emitted? || outcome.Crashed?
      invariant outcome == Idle ==> inQ.items == []
      invariant old(inQ.items) == taken + inQ.items
      invariant ServeAll(SettingOf(cache, engine), old(cache.files), taken) ==
        Run(images, if outcome.Crashed? then Some(outcome.failure) else None, cache.files)
      invariant outQ.items == old(outQ.items) + Envelopes(taken[..|images|], images, now)
      decreases |inQ.items|, if outcome.Emitted? then 1 else 0
    {
      assert taken[..|images|] == taken;
      outcome, taken, images := ConsumeNext(inQ, outQ, cache, engine, now,
        old(inQ.items), old(outQ.items), old(cache.files), taken, images);
    }
  }
}
