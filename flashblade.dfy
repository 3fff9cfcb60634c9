/**
 * `FBDiagram`: a FlashBlade diagram is `chassis` copies of the one blade
 * chassis picture for the requested face, stacked.
 */
module FlashBlade {
  import opened Wrappers
  import opened Geometry
  import opened Text
  import opened Images
  import opened AssetCache
  import opened Stacking

  datatype FBConfig = FBConfig(chassis: int, face: string, direction: string)

  /** The configuration `FBDiagram(params)` builds, or the ValueError of `int()` on the chassis count. */
  function FBConfigOf(params: Params): Result<FBConfig>
  {
    var chassis :- if "chassis" in params then ToInt(params["chassis"]) else Ok(1);
    Ok(FBConfig(chassis, Lower(Get(params, "face", "front")), Lower(Get(params, "direction", "up"))))
  }

  predicate LowerCase(s: string)
  {
    forall i :: 0 <= i < |s| ==> !('A' <= s[i] <= 'Z')
  }

  /** The defaults of `FBDiagram.__init__`: one chassis, the front face, stacked bottom-up; a written count is read back exactly. */
  lemma FBConfigFacts(params: Params)
    ensures FBConfigOf(params).Err? <==> "chassis" in params && ParseInt(params["chassis"]).None?
    ensures FBConfigOf(params).Err? ==> FBConfigOf(params).error == BadInt(params["chassis"])
    ensures FBConfigOf(params).Ok? ==>
      var c := FBConfigOf(params).value;
      && LowerCase(c.face) && LowerCase(c.direction)
      && ("chassis" !in params ==> c.chassis == 1)
      && ("face" !in params ==> c.face == "front")
      && ("face" in params ==> c.face == Lower(params["face"]))
      && ("direction" !in params ==> c.direction == "up")
      && ("direction" in params ==> c.direction == Lower(params["direction"]))
      && (forall n: int :: "chassis" in params && params["chassis"] == IntToString(n) ==> c.chassis == n)
  {
    if "chassis" in params {
      forall n: int | params["chassis"] == IntToString(n)
        ensures FBConfigOf(params).value.chassis == n
      {
        ParseIntToString(n);
      }
    }
  }

  /** `FBDiagram.__init__`, field by field: the chassis count, then the face, then the direction. */
  method Init(params: Params) returns (r: Result<FBConfig>)
    ensures r == FBConfigOf(params)
  {
    var chassis := 1;
    if "chassis" in params {
      chassis :- ToInt(params["chassis"]);
    }
    var face := Lower(Get(params, "face", "front"));
    var direction := Lower(Get(params, "direction", "up"));
    return Ok(FBConfig(chassis, face, direction));
  }

  /** `"png/pure_fb_{}.png".format(face)` */
  function FBKey(face: string): string { "png/pure_fb_" + face + ".png" }

  /** `n` copies of the same image, none for a count below one (`range` of it is empty). */
  function Copies(x: Section, n: int): (r: seq<Section>)
  {
    seq(if n <= 0 then 0 else n, _ => x)
  }

  /** The images `asyncio.gather` hands back: the blade picture once per chassis, or the error of fetching it. */
  function FBImages(assets: map<string, Size>, config: FBConfig): Result<seq<Section>>
  {
    if config.chassis <= 0 then Ok([])
    else
      var key := FBKey(config.face);
      var img :- Fetch(assets, key);
      Ok(Copies(Section(key, img, []), config.chassis))
  }

  /** The outcome of `FBDiagram.get_image()`. */
  function FBImage(assets: map<string, Size>, config: FBConfig): Result<Canvas>
  {
    var images :- FBImages(assets, config);
    Stack(Oriented(config.direction, images))
  }

  lemma {:induction false} CopiesTotals(x: Section, n: nat)
    ensures TotalHeight(Copies(x, n)) == n * x.size.h
    ensures n > 0 ==> MaxWidth(Copies(x, n)) == x.size.w
  {
    if n > 0 {
      assert Copies(x, n)[..n - 1] == Copies(x, n - 1);
      CopiesTotals(x, n - 1);
    }
  }

  /**
   * A FlashBlade diagram: no chassis is no image at all, a missing picture
   * is that error, and otherwise the canvas is one picture wide and `chassis`
   * pictures tall, each copy flush left directly under the one before, in
   * either direction.
   */
  lemma FBImageShape(assets: map<string, Size>, config: FBConfig)
    ensures var key := FBKey(config.face);
      && (FBImage(assets, config).Ok? <==> config.chassis > 0 && key in assets)
      && (config.chassis <= 0 ==> FBImage(assets, config) == Err(NoImages))
      && (config.chassis > 0 && key !in assets ==> FBImage(assets, config) == Err(MissingAsset(key)))
      && (FBImage(assets, config).Ok? ==>
            var c := FBImage(assets, config).value;
            var x := Section(key, assets[key], []);
            && c.size == Size(assets[key].w, config.chassis * assets[key].h)
            && |c.pastes| == config.chassis
            && forall i :: 0 <= i < config.chassis ==> c.pastes[i] == Placement(x, Point(0, i * assets[key].h)))
  {
    var key := FBKey(config.face);
    if config.chassis > 0 && key in assets {
      var x := Section(key, assets[key], []);
      var images := Copies(x, config.chassis);
      assert Reversed(images) == images;
      CopiesTotals(x, config.chassis);
      forall i | 0 <= i < config.chassis
        ensures TotalHeight(images[..i]) == i * assets[key].h
      {
        assert images[..i] == Copies(x, i);
        CopiesTotals(x, i);
      }
    }
  }

  /**
   * The tasks of `FBDiagram.get_image()`: one `RackImage(img_key).get_image()`
   * per chassis. However many chassis there are, the picture is decoded at
   * most once.
   */
  method FetchCopies(cache: Registry, config: FBConfig) returns (r: Result<seq<Section>>)
    requires cache.Valid()
    modifies cache, cache.Repr
    ensures Advances(cache)
    ensures r == FBImages(cache.assets, config)
    ensures var key := FBKey(config.face);
      cache.loads == if config.chassis <= 0 || key in old(cache.loads) || key !in cache.assets
                     then old(cache.loads) else old(cache.loads) + [key]
  {
    var key := FBKey(config.face);
    var n := if config.chassis <= 0 then 0 else config.chassis;
    var images: seq<Section> := [];
    for i := 0 to n
      invariant Advances(cache)
      invariant i > 0 ==> key in cache.assets
      invariant |images| == i && forall k :: 0 <= k < i ==> images[k] == Section(key, cache.assets[key], [])
      invariant cache.loads == if i == 0 || key in old(cache.loads) || key !in cache.assets
                               then old(cache.loads) else old(cache.loads) + [key]
    {
      var img :- Acquire(cache, key);
      images := images + [Section(key, img, [])];
    }
    if n > 0 {
      assert images == Copies(Section(key, cache.assets[key], []), n);
    }
    return Ok(images);
  }

  /** `FBDiagram.get_image()`: the copies, turned round for a bottom-up diagram, then stacked. */
  method FBGetImage(cache: Registry, config: FBConfig) returns (r: Result<Canvas>)
    requires cache.Valid()
    modifies cache, cache.Repr
    ensures Advances(cache)
    ensures r == FBImage(cache.assets, config)
    ensures var key := FBKey(config.face);
      cache.loads == if config.chassis <= 0 || key in old(cache.loads) || key !in cache.assets
                     then old(cache.loads) else old(cache.loads) + [key]
  {
    var images :- FetchCopies(cache, config);
    images := Orient(config.direction, images);
    r := CombineImagesVertically(images);
  }
}
