/**
 * The asset registry behind `RackImage`: a process-wide map from an asset
 * key to the first `RackImage` built for it. Later `RackImage`s for the
 * same key are secondaries that delegate to that first one; the first one
 * decodes its file only while it has no image yet, and every caller gets
 * its own copy.
 *
 * A decoded image is abstracted to its size; the asset source (the image
 * files on disk) is the `assets` map of the registry.
 */
module AssetCache {
  import opened Wrappers
  import opened Geometry

  /**
   * What decoding `key` from the asset source gives: its image, or the error `Image.open` raises.
   * The ensures unfold the definition for the solver; the promises are stated on `RackImage.GetImage` and `Acquire`.
   */
  function Fetch(assets: map<string, Size>, key: string): (r: Result<Size>)
    ensures r.Ok? <==> key in assets
    ensures r.Ok? ==> r.value == assets[key]
    ensures r.Err? ==> r.error == MissingAsset(key)
  {
    if key in assets then Ok(assets[key]) else Err(MissingAsset(key))
  }

  /** The global `cache` together with an instrumentation log of every decode. */
  class Registry {
    /** The asset source: the size of the image stored under each key. */
    const assets: map<string, Size>
    /** `cache`: key to the primary `RackImage` registered for it. */
    var entries: map<string, RackImage>
    /** The keys decoded so far, in order (one entry per call of `load_img` that succeeded). */
    var loads: seq<string>
    /** The primary objects, the ones the registry may update. */
    ghost var Repr: set<RackImage>

    ghost predicate Valid()
      reads this, Repr
    {
      && (forall k | k in entries :: entries[k] in Repr && entries[k].key == k && entries[k].primary)
      && (forall k | k in entries && entries[k].img.Some? ::
            k in assets && entries[k].img.value == assets[k] && k in loads)
      && (forall i | 0 <= i < |loads| :: loads[i] in entries && entries[loads[i]].img.Some?)
      && (forall i, j | 0 <= i < j < |loads| :: loads[i] != loads[j])
    }

    /** `r` was built by the `RackImage` constructor against this registry. */
    ghost predicate Issued(r: RackImage)
      reads this, r
    {
      r.key in entries && (r == entries[r.key] || (!r.primary && r.primaryObj == entries[r.key]))
    }

    constructor (assets: map<string, Size>)
      ensures Valid()
      ensures this.assets == assets && entries == map[] && loads == []
    {
      this.assets := assets;
      entries := map[];
      loads := [];
      Repr := {};
    }
  }

  /** The past of a registry is kept: no entry is replaced, new entries are new objects, the decode log only grows. */
  twostate predicate Extends(cache: Registry)
    reads cache
  {
    && (forall k | k in old(cache.entries) :: k in cache.entries && cache.entries[k] == old(cache.entries[k]))
    && old(cache.loads) <= cache.loads
  }

  /** A registry step: still valid, nothing replaced, and every entry added is a new object. */
  twostate predicate Advances(cache: Registry)
    reads cache, cache.Repr
  {
    cache.Valid() && Extends(cache) && fresh(cache.Repr - old(cache.Repr))
  }

  class RackImage {
    const key: string
    var img: Option<Size>
    var primary: bool
    var primaryObj: RackImage?

    /**
     * `RackImage(key)`: the first object for a key registers itself and
     * becomes primary; any later one is a secondary pointing at it and
     * leaves the registry as it was.
     */
    constructor (key: string, cache: Registry)
      requires cache.Valid()
      modifies cache
      ensures cache.Valid() && cache.Issued(this)
      ensures this.key == key && img == None
      ensures cache.loads == old(cache.loads)
      ensures cache.Repr == if old(key in cache.entries) then old(cache.Repr) else old(cache.Repr) + {this}
      ensures old(key in cache.entries) ==>
        !primary && primaryObj == old(cache.entries[key]) && cache.entries == old(cache.entries)
      ensures old(key !in cache.entries) ==>
        primary && cache.entries == old(cache.entries)[key := this]
    {
      this.key := key;
      img := None;
      if key in cache.entries {
        primary := false;
        primaryObj := cache.entries[key];
      } else {
        primary := true;
        primaryObj := null;
      }
      new;
      if primary {
        cache.entries := cache.entries[key := this];
        cache.Repr := cache.Repr + {this};
      }
    }

    /**
     * `get_image()`: a secondary asks its primary; the primary returns its
     * image if it has one, and otherwise decodes the file first. A failed
     * decode leaves the image unset, so a later call tries again.
     */
    method GetImage(cache: Registry) returns (res: Result<Size>)
      requires cache.Valid() && cache.Issued(this)
      modifies cache, cache.Repr
      ensures cache.Valid()
      ensures cache.entries == old(cache.entries) && cache.Repr == old(cache.Repr)
      ensures res == Fetch(cache.assets, key)
      ensures cache.loads ==
        if key in old(cache.loads) || key !in cache.assets then old(cache.loads) else old(cache.loads) + [key]
      decreases if primary then 0 else 1
    {
      if !primary {
        res := primaryObj.GetImage(cache);
        return;
      }
      if img.Some? {
        return Ok(img.value);
      }
      // load_img: Image.open(self.key) raises when the asset source has no such file
      if key !in cache.assets {
        return Err(MissingAsset(key));
      }
      img := Some(cache.assets[key]);
      cache.loads := cache.loads + [key];
      res := Ok(img.value);
    }
  }

  /**
   * `await RackImage(key).get_image()`, the way every section asks for an
   * asset. The answer is what the asset source holds, whatever the state
   * of the registry; the file is decoded at most once per key.
   */
  method Acquire(cache: Registry, key: string) returns (res: Result<Size>)
    requires cache.Valid()
    modifies cache, cache.Repr
    ensures cache.Valid() && Extends(cache)
    ensures fresh(cache.Repr - old(cache.Repr))
    ensures res == Fetch(cache.assets, key)
    ensures key in cache.entries
    ensures cache.loads ==
      if key in old(cache.loads) || key !in cache.assets then old(cache.loads) else old(cache.loads) + [key]
  {
    var r := new RackImage(key, cache);
    res := r.GetImage(cache);
  }
}
