/** The resource loader: asset ids derived from file names, a queue of
    assets and sounds waiting for `preload`, classification of a source by
    its suffix, and the completion counter that fires the `preload`
    callback. The actual loading is outside the model: a load is recorded as
    started, and each load that finishes is an input event. */
module Resources {
  import opened Base

  /** `basename(path)`: the text after the last `/` (the whole path when it
      has none). */
  function LastSegment(path: string): (b: string)
    ensures |b| <= |path| && b == path[|path| - |b|..]
    ensures '/' !in b
    ensures |b| < |path| ==> path[|path| - |b| - 1] == '/'
  {
    if path == [] || path[|path| - 1] == '/' then []
    else
      var front := LastSegment(path[..|path| - 1]);
      assert path[..|path| - 1][|path| - 1 - |front|..] + [path[|path| - 1]] == path[|path| - 1 - |front|..];
      front + [path[|path| - 1]]
  }

  /** The part of a file name before its first `.` (`split('.')[0]`). */
  function BeforeDot(name: string): (b: string)
    ensures |b| <= |name| && b == name[..|b|]
    ensures '.' !in b
    ensures |b| < |name| ==> name[|b|] == '.'
  {
    if name == [] || name[0] == '.' then [] else [name[0]] + BeforeDot(name[1..])
  }

  /** `basename(path, excludeExtension)`. */
  function Basename(path: string, excludeExtension: bool): string
  {
    if excludeExtension then BeforeDot(LastSegment(path)) else LastSegment(path)
  }

  /** The id replacement: every non-word character is replaced by itself,
      except `-`, which becomes `_`. */
  function Underscored(s: string): string
  {
    seq(|s|, i requires 0 <= i < |s| => if s[i] == '-' then '_' else s[i])
  }

  /** The id an asset or sound gets when only its path is given. */
  function AssetId(path: string): (id: string)
    ensures '-' !in id && '/' !in id && '.' !in id
    ensures |id| == |Basename(path, true)|
  {
    var name := Basename(path, true);
    var id := Underscored(name);
    assert forall i :: 0 <= i < |id| ==> id[i] == '_' || id[i] == name[i];
    id
  }

  /** The last segment of a path ending in `/name` is `name`. */
  lemma LastSegmentAfterSlash(dir: string, name: string)
    requires '/' !in name
    ensures LastSegment(dir + "/" + name) == name
  {
    var path := dir + "/" + name;
    var b := LastSegment(path);
    assert path[|path| - |name| - 1] == '/';
    assert path[|path| - |name|..] == name;
  }

  /** The part before the dot of `name.ext` is `name`. */
  lemma BeforeDotOfName(name: string, ext: string)
    requires '.' !in name
    ensures BeforeDot(name + "." + ext) == name
  {
    var s := name + "." + ext;
    assert s[|name|] == '.';
    assert s[..|name|] == name;
  }

  /** A file `dir/name.ext` whose name has no dot and no dash gets `name` as
      its id; a dash in the name becomes an underscore. */
  lemma AssetIdOfFile(dir: string, name: string, ext: string)
    requires '/' !in name && '/' !in ext && '.' !in name
    ensures AssetId(dir + "/" + name + "." + ext) == Underscored(name)
    ensures '-' !in name ==> AssetId(dir + "/" + name + "." + ext) == name
  {
    assert dir + "/" + name + "." + ext == dir + "/" + (name + "." + ext);
    LastSegmentAfterSlash(dir, name + "." + ext);
    BeforeDotOfName(name, ext);
  }

  /** What `loadAsset` makes of a source. */
  datatype Kind = Texture | BitmapFont | Json

  predicate EndsWith(s: string, suffix: string)
  {
    |suffix| <= |s| && s[|s| - |suffix|..] == suffix
  }

  function LowerChar(c: char): char
  {
    if 'A' <= c <= 'Z' then (c as int + 32) as char else c
  }

  /** `toLowerCase`, on ASCII letters. */
  function Lower(s: string): string
  {
    seq(|s|, i requires 0 <= i < |s| => LowerChar(s[i]))
  }

  /** The suffix tests of `loadAsset`, in order; `None` is the
      unrecognised-format error. Image and font suffixes are compared as
      written, `.json` ignoring case. */
  function Classify(source: string): Option<Kind>
  {
    if || EndsWith(source, ".jpg") || EndsWith(source, ".jpeg") || EndsWith(source, ".png")
       || EndsWith(source, ".gif") || EndsWith(source, ".webp")
    then Some(Texture)
    else if EndsWith(source, ".fnt") || EndsWith(source, ".xml") then Some(BitmapFont)
    else if EndsWith(Lower(source), ".json") then Some(Json)
    else None
  }

  /** `loadSound`'s test: only `.mp3` sources load. */
  predicate IsSound(source: string)
  {
    EndsWith(source, ".mp3")
  }

  lemma EndsWithAppended(p: string, e: string)
    ensures EndsWith(p + e, e)
  {
    assert (p + e)[|p + e| - |e|..] == e;
  }

  /** A string does not end with a suffix whose last character differs. */
  lemma LastCharDiffers(s: string, e: string)
    requires |s| > 0 && |e| > 0 && s[|s| - 1] != e[|e| - 1]
    ensures !EndsWith(s, e)
  {
    if |e| <= |s| {
      assert s[|s| - |e|..][|e| - 1] == s[|s| - 1];
    }
  }

  /** A string without a dot does not end with a suffix starting with one. */
  lemma NoDotNoSuffix(s: string, e: string)
    requires '.' !in s && |e| > 0 && e[0] == '.'
    ensures !EndsWith(s, e)
  {
    if |e| <= |s| {
      assert s[|s| - |e|..][0] == s[|s| - |e|];
    }
  }

  /** A source without a dot is never recognised. */
  lemma ClassifyNeedsDot(p: string)
    requires '.' !in p
    ensures Classify(p) == None
  {
    NoDotNoSuffix(p, ".jpg");
    NoDotNoSuffix(p, ".jpeg");
    NoDotNoSuffix(p, ".png");
    NoDotNoSuffix(p, ".gif");
    NoDotNoSuffix(p, ".webp");
    NoDotNoSuffix(p, ".fnt");
    NoDotNoSuffix(p, ".xml");
    assert '.' !in Lower(p) by {
      forall i | 0 <= i < |p| ensures Lower(p)[i] != '.' {
        assert p[i] in p;
      }
    }
    NoDotNoSuffix(Lower(p), ".json");
  }

  /** Image suffixes are recognised only as written: `.png` loads as a
      texture, `.PNG` is an unrecognised format. */
  lemma ClassifyImageCase(p: string)
    ensures Classify(p + ".png") == Some(Texture)
    ensures Classify(p + ".PNG") == None
  {
    EndsWithAppended(p, ".png");
    var s := p + ".PNG";
    assert s[|s| - 1] == 'G';
    LastCharDiffers(s, ".jpg");
    LastCharDiffers(s, ".jpeg");
    LastCharDiffers(s, ".png");
    LastCharDiffers(s, ".gif");
    LastCharDiffers(s, ".webp");
    LastCharDiffers(s, ".fnt");
    LastCharDiffers(s, ".xml");
    assert Lower(s)[|s| - 1] == 'g';
    LastCharDiffers(Lower(s), ".json");
  }

  /** `.json` is recognised in any case. */
  lemma ClassifyJsonCase(p: string)
    ensures Classify(p + ".json") == Some(Json)
    ensures Classify(p + ".JSON") == Some(Json)
  {
    ClassifyJsonLower(p);
    ClassifyJsonUpper(p);
  }

  lemma ClassifyJsonLower(p: string)
    ensures Classify(p + ".json") == Some(Json)
  {
    var s := p + ".json";
    assert s[|s| - 1] == 'n';
    LastCharDiffers(s, ".jpg");
    LastCharDiffers(s, ".jpeg");
    LastCharDiffers(s, ".png");
    LastCharDiffers(s, ".gif");
    LastCharDiffers(s, ".webp");
    LastCharDiffers(s, ".fnt");
    LastCharDiffers(s, ".xml");
    assert Lower(s)[|s| - 5..] == ".json";
  }

  lemma ClassifyJsonUpper(p: string)
    ensures Classify(p + ".JSON") == Some(Json)
  {
    var t := p + ".JSON";
    assert t[|t| - 1] == 'N';
    LastCharDiffers(t, ".jpg");
    LastCharDiffers(t, ".jpeg");
    LastCharDiffers(t, ".png");
    LastCharDiffers(t, ".gif");
    LastCharDiffers(t, ".webp");
    LastCharDiffers(t, ".fnt");
    LastCharDiffers(t, ".xml");
    assert Lower(t)[|t| - 5..] == ".json";
  }

  /** An asset in `assets`: the object `loadAsset` made for a source. */
  datatype Asset = Asset(kind: Kind, source: string)

  /** A `soundQueue` entry: a source waiting for `preload`, or the object of
      a sound whose load already started. */
  datatype Sound = Pending(source: string) | Started(source: string)

  /** The second argument of `addAsset`/`addSound`: absent, a boolean, or a
      source path. */
  datatype Arg = Absent | Flag(flag: bool) | Path(path: string)

  /** The errors the loader throws. */
  datatype Error =
    | UnrecognisedFormat(source: string)
    | NotASource(id: string)   // `preload` meets a sound object in the queue

  /** The id, source and `force` flag `addAsset`/`addSound` settle on. */
  datatype Request = Request(id: string, source: string, force: bool)

  function Normalise(first: string, second: Arg, force: bool): (r: Request)
    ensures second.Path? ==> r == Request(first, second.path, force)
    ensures !second.Path? ==> r.id == AssetId(first) && r.source == first
    ensures second.Absent? ==> !r.force
    ensures second.Flag? ==> r.force == second.flag
  {
    match second
    case Absent => Request(AssetId(first), first, false)
    case Flag(b) => Request(AssetId(first), first, b)
    case Path(p) => Request(first, p, force)
  }

  /** What `assets[id] = loadAsset(source)` leaves: a recognised source
      stored as an asset of its kind, or, when `loadAsset` throws, the
      assets as they were. */
  predicate Loaded(before: map<string, Asset>, after: map<string, Asset>, id: string, source: string,
                   err: Option<Error>)
  {
    match Classify(source)
    case Some(kind) => err.None? && after == before[id := Asset(kind, source)]
    case None => err == Some(UnrecognisedFormat(source)) && after == before
  }

  /** The assets a successful `preload` of `queue` loads. */
  function LoadedAssets(queue: map<string, string>): map<string, Asset>
  {
    map id | id in queue && Classify(queue[id]).Some? :: Asset(Classify(queue[id]).value, queue[id])
  }

  /** Whether every queued asset source is recognised. */
  predicate AssetsLoadable(queue: map<string, string>)
  {
    forall id :: id in queue ==> Classify(queue[id]).Some?
  }

  /** Whether every sound queue entry is a waiting `.mp3` source. */
  predicate SoundsLoadable(queue: map<string, Sound>)
  {
    forall id :: id in queue ==> queue[id].Pending? && IsSound(queue[id].source)
  }

  /** Where the asset walk of `preload` over `order` stops: the first
      entry whose source is not recognised, or the end. */
  function AssetStop(queue: map<string, string>, order: seq<string>): (k: nat)
    requires forall id :: id in order ==> id in queue
    ensures k <= |order|
    ensures forall i :: 0 <= i < k ==> Classify(queue[order[i]]).Some?
    ensures k < |order| ==> Classify(queue[order[k]]).None?
  {
    if order == [] || Classify(queue[order[0]]).None? then 0
    else 1 + AssetStop(queue, order[1..])
  }

  /** The assets loaded from the queue entries `ids`, all recognised. */
  function QueuedAssets(queue: map<string, string>, ids: seq<string>): (m: map<string, Asset>)
    requires forall id :: id in ids ==> id in queue && Classify(queue[id]).Some?
    ensures forall id :: id in m <==> id in ids
    ensures forall id :: id in m ==> m[id] == Asset(Classify(queue[id]).value, queue[id])
  {
    if ids == [] then map[]
    else
      var last := ids[|ids| - 1];
      QueuedAssets(queue, ids[..|ids| - 1])[last := Asset(Classify(queue[last]).value, queue[last])]
  }

  /** What the asset walk over `order` throws, if anything. */
  function AssetError(queue: map<string, string>, order: seq<string>): Option<Error>
    requires forall id :: id in order ==> id in queue
  {
    var stop := AssetStop(queue, order);
    if stop < |order| then Some(UnrecognisedFormat(queue[order[stop]])) else None
  }

  /** Where the sound walk of `preload` over `order` stops: the first entry
      that is not a waiting `.mp3` source, or the end. */
  function SoundStop(queue: map<string, Sound>, order: seq<string>): (k: nat)
    requires forall id :: id in order ==> id in queue
    ensures k <= |order|
    ensures forall i :: 0 <= i < k ==> queue[order[i]].Pending? && IsSound(queue[order[i]].source)
    ensures k < |order| ==> !(queue[order[k]].Pending? && IsSound(queue[order[k]].source))
  {
    if order == [] || !(queue[order[0]].Pending? && IsSound(queue[order[0]].source)) then 0
    else 1 + SoundStop(queue, order[1..])
  }

  /** The sound loads started for the queue entries `ids`, in order. */
  function SoundLoadsOf(queue: map<string, Sound>, ids: seq<string>): (loads: seq<(string, string)>)
    requires forall id :: id in ids ==> id in queue
    ensures |loads| == |ids|
    ensures forall i :: 0 <= i < |ids| ==> loads[i] == (ids[i], queue[ids[i]].source)
  {
    if ids == [] then [] else [(ids[0], queue[ids[0]].source)] + SoundLoadsOf(queue, ids[1..])
  }

  /** What the sound walk over `order` throws, if anything: an entry whose
      load already started is not a source. */
  function SoundError(queue: map<string, Sound>, order: seq<string>): Option<Error>
    requires forall id :: id in order ==> id in queue
  {
    var stop := SoundStop(queue, order);
    if stop == |order| then None
    else match queue[order[stop]]
      case Started(_) => Some(NotASource(order[stop]))
      case Pending(source) => Some(UnrecognisedFormat(source))
  }

  /** The loader's module state. */
  class Loader {
    var assets: map<string, Asset>
    var assetQueue: map<string, string>
    var soundQueue: map<string, Sound>
    var preloaded: bool
    /** The sound loads started so far (handed to the audio plugin). */
    var soundLoads: seq<(string, string)>

    constructor ()
      ensures assets == map[] && assetQueue == map[] && soundQueue == map[]
      ensures !preloaded && soundLoads == []
    {
      assets, assetQueue, soundQueue := map[], map[], map[];
      preloaded, soundLoads := false, [];
    }

    /** `addAsset`: queue the source under its id, or, once preloaded or
        when forced, load it at once. */
    method AddAsset(first: string, second: Arg, force: bool) returns (err: Option<Error>)
      modifies this`assets, this`assetQueue
      ensures var r := Normalise(first, second, force);
        && (!old(preloaded) && !r.force ==>
              err.None? && assetQueue == old(assetQueue)[r.id := r.source] && assets == old(assets))
        && (old(preloaded) || r.force ==>
              assetQueue == old(assetQueue) && Loaded(old(assets), assets, r.id, r.source, err))
      ensures soundQueue == old(soundQueue) && preloaded == old(preloaded) && soundLoads == old(soundLoads)
    {
      err := AddAssetRequest(Normalise(first, second, force));
    }

    /** The body of `addAsset` once its arguments are normalised. */
    method AddAssetRequest(r: Request) returns (err: Option<Error>)
      modifies this`assets, this`assetQueue
      ensures !old(preloaded) && !r.force ==>
        err.None? && assetQueue == old(assetQueue)[r.id := r.source] && assets == old(assets)
      ensures old(preloaded) || r.force ==>
        assetQueue == old(assetQueue) && Loaded(old(assets), assets, r.id, r.source, err)
    {
      err := None;
      if preloaded || r.force {
        err := LoadAsset(r.id, r.source);
      } else {
        assetQueue := assetQueue[r.id := r.source];
      }
    }

    /** `assets[id] = loadAsset(source)`: a recognised source is stored as
        an asset of its kind; any other throws and stores nothing. */
    method LoadAsset(id: string, source: string) returns (err: Option<Error>)
      modifies this`assets
      ensures Loaded(old(assets), assets, id, source, err)
    {
      var kind := Classify(source);
      if kind.None? {
        return Some(UnrecognisedFormat(source));
      }
      assets := assets[id := Asset(kind.value, source)];
      err := None;
    }

    /** `addSound`: queue the source under its id, or, once preloaded or
        when forced, start loading it and keep the sound object instead. */
    method AddSound(first: string, second: Arg, force: bool) returns (err: Option<Error>)
      modifies this`soundQueue, this`soundLoads
      ensures var r := Normalise(first, second, force);
        && (!old(preloaded) && !r.force ==>
              err.None? && soundQueue == old(soundQueue)[r.id := Pending(r.source)]
              && soundLoads == old(soundLoads))
        && (old(preloaded) || r.force ==>
              && (IsSound(r.source) ==>
                    && err.None? && soundQueue == old(soundQueue)[r.id := Started(r.source)]
                    && soundLoads == old(soundLoads) + [(r.id, r.source)])
              && (!IsSound(r.source) ==>
                    && err == Some(UnrecognisedFormat(r.source))
                    && soundQueue == old(soundQueue) && soundLoads == old(soundLoads)))
      ensures assets == old(assets) && assetQueue == old(assetQueue) && preloaded == old(preloaded)
    {
      err := AddSoundRequest(Normalise(first, second, force));
    }

    /** The body of `addSound` once its arguments are normalised. */
    method AddSoundRequest(r: Request) returns (err: Option<Error>)
      modifies this`soundQueue, this`soundLoads
      ensures !old(preloaded) && !r.force ==>
        err.None? && soundQueue == old(soundQueue)[r.id := Pending(r.source)] && soundLoads == old(soundLoads)
      ensures old(preloaded) || r.force ==>
        && (IsSound(r.source) ==>
              && err.None? && soundQueue == old(soundQueue)[r.id := Started(r.source)]
              && soundLoads == old(soundLoads) + [(r.id, r.source)])
        && (!IsSound(r.source) ==>
              && err == Some(UnrecognisedFormat(r.source))
              && soundQueue == old(soundQueue) && soundLoads == old(soundLoads))
    {
      err := None;
      if preloaded || r.force {
        err := LoadSound(r.id, r.source);
      } else {
        soundQueue := soundQueue[r.id := Pending(r.source)];
      }
    }

    /** `sounds[id] = loadSound(id, source)`: an `.mp3` source starts
        loading and its sound object replaces the entry; any other throws
        and changes nothing. */
    method LoadSound(id: string, source: string) returns (err: Option<Error>)
      modifies this`soundQueue, this`soundLoads
      ensures IsSound(source) ==>
        && err.None? && soundQueue == old(soundQueue)[id := Started(source)]
        && soundLoads == old(soundLoads) + [(id, source)]
      ensures !IsSound(source) ==>
        err == Some(UnrecognisedFormat(source)) && soundQueue == old(soundQueue) && soundLoads == old(soundLoads)
    {
      if !IsSound(source) {
        return Some(UnrecognisedFormat(source));
      }
      soundLoads := soundLoads + [(id, source)];
      soundQueue := soundQueue[id := Started(source)];
      err := None;
    }

    /** `preload`: start loading every queued asset (into `assets`) and
        every queued sound, in the queues' key order `assetOrder` and
        `soundOrder`, and count on a new batch the loads that must finish.
        The first source that cannot be loaded throws and ends the walk. */
    method Preload(assetOrder: seq<string>, soundOrder: seq<string>) returns (err: Option<Error>, batch: Batch)
      requires forall id :: id in assetQueue <==> id in assetOrder
      requires forall id :: id in soundQueue <==> id in soundOrder
      modifies this`assets, this`soundLoads
      ensures fresh(batch) && batch.owner == this && batch.Valid()
      ensures batch.expected == |assetQueue| + |soundQueue| && batch.loaded == 0
      ensures err.None? <==> AssetsLoadable(assetQueue) && SoundsLoadable(soundQueue)
      ensures AssetsLoadable(assetQueue) ==> assets == old(assets) + LoadedAssets(assetQueue)
      ensures LoadedFrom(old(assets), assets, assetQueue)
      ensures err.None? ==>
        forall id :: id in soundQueue ==> (id, soundQueue[id].source) in soundLoads
      // exactly the loads up to the first source that throws, and that throw
      ensures assets == old(assets) + QueuedAssets(assetQueue, assetOrder[..AssetStop(assetQueue, assetOrder)])
      ensures soundLoads == old(soundLoads) +
        if AssetError(assetQueue, assetOrder).Some? then []
        else SoundLoadsOf(soundQueue, soundOrder[..SoundStop(soundQueue, soundOrder)])
      ensures err == if AssetError(assetQueue, assetOrder).Some? then AssetError(assetQueue, assetOrder)
        else SoundError(soundQueue, soundOrder)
    {
      err := LoadQueuedAssets(assetOrder);
      if err.None? {
        err := LoadQueuedSounds(soundOrder);
      }
      // the walks leave both queues as they were, so the count is the one
      // `preload` takes before them
      batch := new Batch(this, |assetQueue| + |soundQueue|);
    }

    /** The asset walk of `preload`. */
    method LoadQueuedAssets(order: seq<string>) returns (err: Option<Error>)
      requires forall id :: id in assetQueue <==> id in order
      modifies this`assets
      ensures err.None? <==> AssetsLoadable(assetQueue)
      ensures err.None? ==> assets == old(assets) + LoadedAssets(assetQueue)
      ensures LoadedFrom(old(assets), assets, assetQueue)
      ensures assets == old(assets) + QueuedAssets(assetQueue, order[..AssetStop(assetQueue, order)])
      ensures err == AssetError(assetQueue, order)
    {
      AssetWalk(assetQueue, order, assets);
      var loaded;
      loaded, err := WalkAssets(assetQueue, order, assets);
      assets := loaded;
    }

    /** The sound walk of `preload`: a sound whose load already started is
        not a source and throws, as does a source that is not `.mp3`. */
    method LoadQueuedSounds(order: seq<string>) returns (err: Option<Error>)
      requires forall id :: id in soundQueue <==> id in order
      modifies this`soundLoads
      ensures err.None? <==> SoundsLoadable(soundQueue)
      ensures err.None? ==> forall id :: id in soundQueue ==> (id, soundQueue[id].source) in soundLoads
      ensures soundLoads == old(soundLoads) + SoundLoadsOf(soundQueue, order[..SoundStop(soundQueue, order)])
      ensures err == SoundError(soundQueue, order)
    {
      SoundWalk(soundQueue, order, soundLoads);
      var loads;
      loads, err := WalkSounds(soundQueue, order);
      soundLoads := soundLoads + loads;
    }
  }

  /** The loop of the asset walk: `loadAsset` on each queued source in
      `order`, stored over `start`, until one throws. */
  method WalkAssets(queue: map<string, string>, order: seq<string>, start: map<string, Asset>)
    returns (assets: map<string, Asset>, err: Option<Error>)
    requires forall id :: id in order ==> id in queue
    ensures assets == start + QueuedAssets(queue, order[..AssetStop(queue, order)])
    ensures err == AssetError(queue, order)
  {
    assets := start;
    assert QueuedAssets(queue, order[..0]) == map[];
    assert assets == assets + map[];
    var k := 0;
    while k < |order|
      invariant k <= AssetStop(queue, order)
      invariant assets == start + QueuedAssets(queue, order[..k])
    {
      var id := order[k];
      var kind := Classify(queue[id]);
      if kind.None? {
        return assets, Some(UnrecognisedFormat(queue[id]));
      }
      QueuedAssetsStep(queue, order, k);
      MergeUpdate(start, QueuedAssets(queue, order[..k]), id, Asset(kind.value, queue[id]));
      assets := assets[id := Asset(kind.value, queue[id])];
      k := k + 1;
    }
    assert order[..k] == order;
    err := None;
  }

  /** The loop of the sound walk: the `loadSound` calls on each queue
      entry in `order`, until one throws. */
  method WalkSounds(queue: map<string, Sound>, order: seq<string>)
    returns (loads: seq<(string, string)>, err: Option<Error>)
    requires forall id :: id in order ==> id in queue
    ensures loads == SoundLoadsOf(queue, order[..SoundStop(queue, order)])
    ensures err == SoundError(queue, order)
  {
    loads := [];
    var m := 0;
    while m < |order|
      invariant m <= SoundStop(queue, order)
      invariant loads == SoundLoadsOf(queue, order[..m])
    {
      var id := order[m];
      match queue[id]
      case Started(_) =>
        return loads, Some(NotASource(id));
      case Pending(source) =>
        if !IsSound(source) {
          return loads, Some(UnrecognisedFormat(source));
        }
        loads := loads + [(id, source)];
        assert order[..m + 1] == order[..m] + [id];
        m := m + 1;
    }
    assert order[..m] == order;
    err := None;
  }

  /** Updating the right operand of a merge updates the merge. */
  lemma MergeUpdate<K, V>(a: map<K, V>, b: map<K, V>, k: K, v: V)
    ensures a + b[k := v] == (a + b)[k := v]
  {
  }

  /** Every entry before the stop of the asset walk is recognised. */
  lemma PrefixRecognised(queue: map<string, string>, order: seq<string>, m: nat)
    requires forall id :: id in order ==> id in queue
    requires m <= AssetStop(queue, order)
    ensures forall id :: id in order[..m] ==> id in queue && Classify(queue[id]).Some?
  {
    forall id | id in order[..m] ensures id in queue && Classify(queue[id]).Some? {
      var i :| 0 <= i < m && order[..m][i] == id;
      assert order[i] == id;
    }
  }

  /** One more step of the asset walk adds one asset. */
  lemma QueuedAssetsStep(queue: map<string, string>, order: seq<string>, k: nat)
    requires forall id :: id in order ==> id in queue
    requires k < AssetStop(queue, order)
    ensures forall id :: id in order[..k + 1] ==> id in queue && Classify(queue[id]).Some?
    ensures QueuedAssets(queue, order[..k + 1])
      == QueuedAssets(queue, order[..k])[order[k] := Asset(Classify(queue[order[k]]).value, queue[order[k]])]
  {
    PrefixRecognised(queue, order, k + 1);
    PrefixRecognised(queue, order, k);
    var ids := order[..k + 1];
    assert ids[..|ids| - 1] == order[..k] && ids[|ids| - 1] == order[k];
  }

  /** The asset walk over an order listing exactly the queued ids throws
      exactly when some queued source is not recognised, and otherwise
      loads the whole queue; either way every asset it leaves comes from the
      queue or was there before. */
  lemma AssetWalk(queue: map<string, string>, order: seq<string>, before: map<string, Asset>)
    requires forall id :: id in queue <==> id in order
    ensures AssetError(queue, order).None? <==> AssetsLoadable(queue)
    ensures AssetError(queue, order).None? ==>
      before + QueuedAssets(queue, order[..AssetStop(queue, order)]) == before + LoadedAssets(queue)
    ensures LoadedFrom(before, before + QueuedAssets(queue, order[..AssetStop(queue, order)]), queue)
  {
    var stop := AssetStop(queue, order);
    if stop < |order| {
      assert !AssetsLoadable(queue) by {
        assert order[stop] in queue;
      }
    } else {
      assert AssetsLoadable(queue) by {
        forall id | id in queue ensures Classify(queue[id]).Some? {
          var i :| 0 <= i < |order| && order[i] == id;
        }
      }
      assert order[..stop] == order;
      WholeQueueLoaded(queue, order);
    }
    LoadedFromQueue(queue, order[..stop], before);
  }

  /** Walking a loadable queue completely loads `LoadedAssets`. */
  lemma WholeQueueLoaded(queue: map<string, string>, order: seq<string>)
    requires forall id :: id in queue <==> id in order
    requires AssetsLoadable(queue)
    ensures QueuedAssets(queue, order) == LoadedAssets(queue)
  {
    var q, l := QueuedAssets(queue, order), LoadedAssets(queue);
    assert q.Keys == l.Keys;
    forall id | id in q ensures q[id] == l[id] {
    }
  }

  /** Assets loaded from queue entries come from the queue. */
  lemma LoadedFromQueue(queue: map<string, string>, ids: seq<string>, before: map<string, Asset>)
    requires forall id :: id in ids ==> id in queue && Classify(queue[id]).Some?
    ensures LoadedFrom(before, before + QueuedAssets(queue, ids), queue)
  {
  }

  /** The sound walk over an order listing exactly the queued ids throws
      exactly when some entry is not a waiting `.mp3` source, and otherwise
      starts a load for every queued sound. */
  lemma SoundWalk(queue: map<string, Sound>, order: seq<string>, before: seq<(string, string)>)
    requires forall id :: id in queue <==> id in order
    ensures SoundError(queue, order).None? <==> SoundsLoadable(queue)
    ensures SoundError(queue, order).None? ==> forall id :: id in queue ==>
      (id, queue[id].source) in before + SoundLoadsOf(queue, order[..SoundStop(queue, order)])
  {
    var stop := SoundStop(queue, order);
    if stop < |order| {
      assert !SoundsLoadable(queue) by {
        assert order[stop] in queue;
      }
    } else {
      assert order[..stop] == order;
      var loads := SoundLoadsOf(queue, order);
      forall id | id in queue
        ensures queue[id].Pending? && IsSound(queue[id].source)
        ensures (id, queue[id].source) in before + loads
      {
        var i :| 0 <= i < |order| && order[i] == id;
        assert (before + loads)[|before| + i] == loads[i];
      }
    }
  }

  /** Every asset after a `preload` is either one it loaded from the queue or
      one that was there before. */
  ghost predicate LoadedFrom(before: map<string, Asset>, after: map<string, Asset>, queue: map<string, string>)
  {
    forall id :: id in after ==>
      || (id in queue && Classify(queue[id]) == Some(after[id].kind) && after[id].source == queue[id])
      || (id in before && after[id] == before[id])
  }

  /** The completion counter of one `preload` call. */
  class Batch {
    const owner: Loader
    /** The number of queued assets and sounds when `preload` was called. */
    const expected: nat
    /** The loads finished so far. */
    var loaded: nat
    /** How often the `preload` callback has run. */
    var calls: nat

    /** The callback has run once exactly when the count has reached the
        expected number, and never for an empty batch. */
    ghost predicate Valid()
      reads this
    {
      calls == if 0 < expected <= loaded then 1 else 0
    }

    constructor (owner: Loader, expected: nat)
      ensures this.owner == owner && this.expected == expected
      ensures loaded == 0 && calls == 0 && Valid()
    {
      this.owner, this.expected := owner, expected;
      loaded, calls := 0, 0;
    }

    /** `check`: one load has finished. On the completion that brings the
        count to the expected number the loader is marked preloaded and the
        callback runs. */
    method Complete() returns (fired: bool)
      requires Valid()
      modifies this, owner`preloaded
      ensures loaded == old(loaded) + 1 && Valid()
      ensures fired <==> loaded == expected
      ensures calls == old(calls) + (if fired then 1 else 0)
      ensures fired ==> owner.preloaded
      ensures !fired ==> owner.preloaded == old(owner.preloaded)
    {
      loaded := loaded + 1;
      fired := loaded == expected;
      if fired {
        owner.preloaded := true;
        calls := calls + 1;
      }
    }
  }
}
