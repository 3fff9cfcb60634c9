/**
 * The entry points: `init_diagram`, which picks the FlashArray or the
 * FlashBlade builder from the model parameter, and the `get_image` of each,
 * which gathers the section images and stacks them.
 */
module Diagram {
  import opened Wrappers
  import opened Geometry
  import opened Text
  import opened Images
  import opened AssetCache
  import opened FAConfig
  import opened Sections
  import opened Stacking
  import opened FlashBlade

  datatype Diagram = FA(fa: Config) | FB(fb: FBConfig)

  /** `params.get('model', 'fa-x20r2').lower()` */
  function ModelOf(params: Params): string
  {
    Lower(Get(params, "model", "fa-x20r2"))
  }

  /** The diagram `init_diagram(params)` builds, or the exception it raises. */
  function InitDiagramOf(params: Params): Result<Diagram>
  {
    var model := ModelOf(params);
    var params' := params["model" := model];
    if StartsWith(model, "fa") then
      var c :- ConfigOf(params');
      Ok(FA(c))
    else if StartsWith(model, "fb") then
      var c :- FBConfigOf(params');
      Ok(FB(c))
    else
      Err(UnknownModel(model))
  }

  /** An unnamed model is an FA//X20R2, and a model that is neither a FlashArray nor a FlashBlade is refused (`UnknownModel`). */
  lemma InitDiagramDefault(params: Params)
    ensures "model" !in params ==> ModelOf(params) == "fa-x20r2"
    ensures !StartsWith(ModelOf(params), "fa") && !StartsWith(ModelOf(params), "fb") ==>
      InitDiagramOf(params) == Err(UnknownModel(ModelOf(params)))
  {
    if "model" !in params {
      assert Lower("fa-x20r2") == "fa-x20r2";
    }
  }

  /** A FlashArray model gives a FlashArray configuration, which keeps the lower-cased model. */
  lemma InitDiagramFA(params: Params)
    requires StartsWith(ModelOf(params), "fa")
    ensures InitDiagramOf(params).Ok? <==> ConfigOf(params["model" := ModelOf(params)]).Ok?
    ensures InitDiagramOf(params).Ok? ==>
      InitDiagramOf(params).value.FA? && InitDiagramOf(params).value.fa.modelStr == ModelOf(params)
  {
    LowerIdempotent(Get(params, "model", "fa-x20r2"));
  }

  /** A FlashBlade model gives the FlashBlade configuration of the request: rewriting the model changes nothing it reads. */
  lemma InitDiagramFB(params: Params)
    requires StartsWith(ModelOf(params), "fb")
    ensures InitDiagramOf(params) ==
      if FBConfigOf(params).Ok? then Ok(FB(FBConfigOf(params).value)) else Err(FBConfigOf(params).error)
  {
    var params' := params["model" := ModelOf(params)];
    assert Get(params', "chassis", "1") == Get(params, "chassis", "1");
    assert Get(params', "face", "front") == Get(params, "face", "front");
    assert Get(params', "direction", "up") == Get(params, "direction", "up");
  }

  /** `init_diagram(params)`, the parameter dictionary updated with the lower-cased model before either builder reads it. */
  method InitDiagram(params: Params) returns (r: Result<Diagram>)
    ensures r == InitDiagramOf(params)
  {
    var model := Lower(Get(params, "model", "fa-x20r2"));
    var params' := params["model" := model];
    if StartsWith(model, "fa") {
      var c :- FAConfig.Init(params');
      return Ok(FA(c));
    } else if StartsWith(model, "fb") {
      var c :- FlashBlade.Init(params');
      return Ok(FB(c));
    }
    return Err(UnknownModel(model));
  }

  // ---- FADiagram.get_image ---------------------------------------------------------

  /** `asyncio.gather` of tasks that each give a value or raise: all the values in task order, or the first error in that order. */
  function Gather<T>(rs: seq<Result<T>>): Result<seq<T>>
  {
    if rs == [] then Ok([])
    else
      var init :- Gather(rs[..|rs| - 1]);
      var last :- rs[|rs| - 1];
      Ok(init + [last])
  }

  /** Gathering succeeds exactly when every task does, and then value `k` is task `k`'s. */
  lemma {:induction false} GatherOk<T>(rs: seq<Result<T>>)
    ensures Gather(rs).Ok? <==> forall k :: 0 <= k < |rs| ==> rs[k].Ok?
    ensures Gather(rs).Ok? ==> |Gather(rs).value| == |rs| && forall k :: 0 <= k < |rs| ==> Gather(rs).value[k] == rs[k].value
    decreases |rs|
  {
    if rs != [] {
      var init := rs[..|rs| - 1];
      GatherOk(init);
      assert forall k :: 0 <= k < |init| ==> init[k] == rs[k];
    }
  }

  /** Once the tasks up to `j` have failed, later tasks do not change the error. */
  lemma {:induction false} GatherPrefix<T>(rs: seq<Result<T>>, j: nat)
    requires j <= |rs| && Gather(rs[..j]).Err?
    ensures Gather(rs) == Gather(rs[..j])
    decreases |rs|
  {
    if j < |rs| {
      var init := rs[..|rs| - 1];
      assert init[..j] == rs[..j];
      GatherPrefix(init, j);
    } else {
      assert rs[..j] == rs;
    }
  }

  /** One more task that succeeds adds its value at the end. */
  lemma GatherSnoc<T>(rs: seq<Result<T>>, i: nat, values: seq<T>, x: T)
    requires i < |rs| && Gather(rs[..i]) == Ok(values) && rs[i] == Ok(x)
    ensures Gather(rs[..i + 1]) == Ok(values + [x])
  {
    assert rs[..i + 1][..i] == rs[..i];
  }

  /** The first failing task decides the error. */
  lemma GatherFirstError<T>(rs: seq<Result<T>>, j: nat)
    requires j < |rs| && rs[j].Err?
    requires forall k :: 0 <= k < j ==> rs[k].Ok?
    ensures Gather(rs) == Err(rs[j].error)
  {
    var head := rs[..j];
    GatherOk(head);
    assert forall k :: 0 <= k < j ==> head[k] == rs[k];
    assert rs[..j + 1][..j] == head;
    GatherPrefix(rs, j + 1);
  }

  /** Stacking what was gathered: one row per task, on a canvas whose size does not depend on the direction. */
  lemma GatheredRows(direction: string, rs: seq<Result<Section>>)
    requires rs != [] && forall k :: 0 <= k < |rs| ==> rs[k].Ok?
    ensures Gather(rs).Ok? && Stack(Oriented(direction, Gather(rs).value)).Ok?
    ensures var c := Stack(Oriented(direction, Gather(rs).value)).value;
      && |c.pastes| == |rs|
      && c.size == Stack(Gather(rs).value).value.size
  {
    GatherOk(rs);
    if direction == "up" {
      StackReversed(Gather(rs).value);
    }
  }

  /** Stacking what was gathered top-down: row `k` is the image of task `k`. */
  lemma GatheredRowsDown(rs: seq<Result<Section>>)
    requires rs != [] && forall k :: 0 <= k < |rs| ==> rs[k].Ok?
    ensures Gather(rs).Ok? && Stack(Gather(rs).value).Ok?
    ensures var c := Stack(Gather(rs).value).value;
      && |c.pastes| == |rs|
      && forall k :: 0 <= k < |rs| ==> c.pastes[k].image == rs[k].value
  {
    GatherOk(rs);
    StackCentred(Gather(rs).value);
  }

  /** Stacking what was gathered bottom-up: row `j` is the image of task `n - 1 - j`. */
  lemma GatheredRowsUp(rs: seq<Result<Section>>)
    requires rs != [] && forall k :: 0 <= k < |rs| ==> rs[k].Ok?
    ensures Gather(rs).Ok? && Stack(Reversed(Gather(rs).value)).Ok?
    ensures var c := Stack(Reversed(Gather(rs).value)).value;
      && |c.pastes| == |rs|
      && forall j :: 0 <= j < |rs| ==> c.pastes[j].image == rs[|rs| - 1 - j].value
  {
    GatherOk(rs);
    StackCentred(Reversed(Gather(rs).value));
  }

  /**
   * What the tasks of `FADiagram.get_image()` give, in the order they are created: the chassis, then each shelf.
   * The ensures unfold the definition for the solver; the promises are stated on `FATasksOk` and the `FAImage` lemmas.
   */
  function FATasks(assets: map<string, Size>, config: Config): (rs: seq<Result<Section>>)
    ensures |rs| == |config.shelves| + 1
    ensures rs[0] == ChassisImage(assets, config)
    ensures forall k :: 0 <= k < |config.shelves| ==> rs[k + 1] == ShelfImage(assets, config.shelves[k])
  {
    [ChassisImage(assets, config)]
      + seq(|config.shelves|, k requires 0 <= k < |config.shelves| => ShelfImage(assets, config.shelves[k]))
  }

  /** The images `asyncio.gather` hands back, or the first error. */
  function FASections(assets: map<string, Size>, config: Config): Result<seq<Section>>
  {
    Gather(FATasks(assets, config))
  }

  /** The outcome of `FADiagram.get_image()`. */
  function FAImage(assets: map<string, Size>, config: Config): Result<Canvas>
  {
    var parts :- FASections(assets, config);
    Stack(Oriented(config.direction, parts))
  }

  /** With every section ready, every task of `FADiagram.get_image()` succeeds. */
  lemma FATasksOk(assets: map<string, Size>, config: Config)
    requires ChassisImage(assets, config).Ok?
    requires forall k :: 0 <= k < |config.shelves| ==> ShelfImage(assets, config.shelves[k]).Ok?
    ensures var rs := FATasks(assets, config); forall k :: 0 <= k < |rs| ==> rs[k].Ok?
  {
    var rs := FATasks(assets, config);
    forall k | 0 <= k < |rs|
      ensures rs[k].Ok?
    {
      if k > 0 {
        assert rs[k] == ShelfImage(assets, config.shelves[k - 1]);
      }
    }
  }

  /**
   * A FlashArray diagram exists when the chassis and every shelf give an
   * image: one row per section, on a canvas whose size does not depend on
   * the direction.
   */
  lemma FAImageOk(assets: map<string, Size>, config: Config)
    requires ChassisImage(assets, config).Ok?
    requires forall k :: 0 <= k < |config.shelves| ==> ShelfImage(assets, config.shelves[k]).Ok?
    ensures FAImage(assets, config).Ok?
    ensures |FAImage(assets, config).value.pastes| == |config.shelves| + 1
    ensures FAImage(assets, config).value.size == Stack(FASections(assets, config).value).value.size
  {
    FATasksOk(assets, config);
    GatheredRows(config.direction, FATasks(assets, config));
  }

  /** Top-down, the chassis is the first row and shelf `k` the row after it. */
  lemma FAImageRowsDown(assets: map<string, Size>, config: Config)
    requires config.direction != "up"
    requires ChassisImage(assets, config).Ok?
    requires forall k :: 0 <= k < |config.shelves| ==> ShelfImage(assets, config.shelves[k]).Ok?
    ensures FAImage(assets, config).Ok? && |FAImage(assets, config).value.pastes| == |config.shelves| + 1
    ensures FAImage(assets, config).value.pastes[0].image == ChassisImage(assets, config).value
    ensures forall k :: 0 <= k < |config.shelves| ==>
      FAImage(assets, config).value.pastes[k + 1].image == ShelfImage(assets, config.shelves[k]).value
  {
    var rs := FATasks(assets, config);
    FATasksOk(assets, config);
    GatheredRowsDown(rs);
    var c := Stack(Gather(rs).value).value;
    assert FAImage(assets, config) == Ok(c);
    forall k | 0 <= k < |config.shelves|
      ensures c.pastes[k + 1].image == ShelfImage(assets, config.shelves[k]).value
    {
      assert c.pastes[k + 1].image == rs[k + 1].value;
    }
  }

  /** Bottom-up, the chassis is the last row and the shelves come in reverse above it: row `j` is shelf `n - 1 - j`. */
  lemma FAImageRowsUp(assets: map<string, Size>, config: Config)
    requires config.direction == "up"
    requires ChassisImage(assets, config).Ok?
    requires forall k :: 0 <= k < |config.shelves| ==> ShelfImage(assets, config.shelves[k]).Ok?
    ensures FAImage(assets, config).Ok? && |FAImage(assets, config).value.pastes| == |config.shelves| + 1
    ensures FAImage(assets, config).value.pastes[|config.shelves|].image == ChassisImage(assets, config).value
    ensures forall j :: 0 <= j < |config.shelves| ==>
      FAImage(assets, config).value.pastes[j].image == ShelfImage(assets, config.shelves[|config.shelves| - 1 - j]).value
  {
    var rs := FATasks(assets, config);
    var n := |config.shelves|;
    FATasksOk(assets, config);
    GatheredRowsUp(rs);
    var c := Stack(Reversed(Gather(rs).value)).value;
    assert FAImage(assets, config) == Ok(c);
    forall j | 0 <= j < n
      ensures c.pastes[j].image == ShelfImage(assets, config.shelves[n - 1 - j]).value
    {
      assert rs[n - j] == ShelfImage(assets, config.shelves[n - 1 - j]);
    }
  }

  /** A chassis that fails fails the whole FlashArray diagram with its error. */
  lemma FAImageChassisError(assets: map<string, Size>, config: Config)
    requires ChassisImage(assets, config).Err?
    ensures FAImage(assets, config) == Err(ChassisImage(assets, config).error)
  {
    GatherFirstError(FATasks(assets, config), 0);
  }

  /** Otherwise a failing diagram reports the error of its first failing shelf. */
  lemma FAImageShelfError(assets: map<string, Size>, config: Config, j: nat)
    requires ChassisImage(assets, config).Ok? && j < |config.shelves|
    requires ShelfImage(assets, config.shelves[j]).Err?
    requires forall k :: 0 <= k < j ==> ShelfImage(assets, config.shelves[k]).Ok?
    ensures FAImage(assets, config) == Err(ShelfImage(assets, config.shelves[j]).error)
  {
    var rs := FATasks(assets, config);
    forall k | 0 <= k < j + 1
      ensures rs[k].Ok?
    {
      if k > 0 {
        assert rs[k] == ShelfImage(assets, config.shelves[k - 1]);
      }
    }
    assert rs[j + 1] == ShelfImage(assets, config.shelves[j]);
    GatherFirstError(rs, j + 1);
  }

  /** A task that fails after tasks that all succeeded ends the gathering with its error. */
  lemma GatherSnocErr<T>(rs: seq<Result<T>>, i: nat, values: seq<T>)
    requires i < |rs| && Gather(rs[..i]) == Ok(values) && rs[i].Err?
    ensures Gather(rs[..i + 1]) == Err(rs[i].error)
  {
    assert rs[..i + 1][..i] == rs[..i];
  }

  /** Turn `i` of the shelf loop: `FAShelf(shelf).get_image()` for shelf `i`, after the chassis and the shelves before it. */
  method GatherTurn(cache: Registry, config: Config, i: nat, parts: seq<Section>) returns (r: Result<seq<Section>>)
    requires cache.Valid() && i < |config.shelves|
    requires Gather(FATasks(cache.assets, config)[..i + 1]) == Ok(parts)
    modifies cache, cache.Repr
    ensures Advances(cache)
    ensures r.Ok? ==> Gather(FATasks(cache.assets, config)[..i + 2]) == r
    ensures r.Err? ==> FASections(cache.assets, config) == r
  {
    ghost var rs := FATasks(cache.assets, config);
    var s := ShelfGetImage(cache, config.shelves[i]);
    if s.Err? {
      GatherSnocErr(rs, i + 1, parts);
      GatherPrefix(rs, i + 2);
      return Err(s.error);
    }
    GatherSnoc(rs, i + 1, parts, s.value);
    return Ok(parts + [s.value]);
  }

  /** The tasks of `FADiagram.get_image()` run one after the other: `FAChassis(config).get_image()`, then `FAShelf(shelf).get_image()` for each shelf. */
  method GatherSections(cache: Registry, config: Config) returns (r: Result<seq<Section>>)
    requires cache.Valid()
    modifies cache, cache.Repr
    ensures Advances(cache)
    ensures r == FASections(cache.assets, config)
  {
    ghost var rs := FATasks(cache.assets, config);
    var chassis := ChassisGetImage(cache, config);
    if chassis.Err? {
      GatherFirstError(rs, 0);
      return Err(chassis.error);
    }
    var parts := [chassis.value];
    GatherSnoc(rs, 0, [], chassis.value);
    assert [] + [chassis.value] == parts;
    for i := 0 to |config.shelves|
      invariant Advances(cache)
      invariant Gather(rs[..i + 1]) == Ok(parts)
    {
      var next := GatherTurn(cache, config, i, parts);
      if next.Err? {
        return next;
      }
      parts := next.value;
    }
    assert rs[..|rs|] == rs;
    return Ok(parts);
  }

  /** `FADiagram.get_image()`: the sections, turned round for a bottom-up diagram, then stacked. */
  method FAGetImage(cache: Registry, config: Config) returns (r: Result<Canvas>)
    requires cache.Valid()
    modifies cache, cache.Repr
    ensures Advances(cache)
    ensures r == FAImage(cache.assets, config)
  {
    var parts :- GatherSections(cache, config);
    parts := Orient(config.direction, parts);
    r := CombineImagesVertically(parts);
  }

  // ---- dispatch ------------------------------------------------------------------------

  /** `diagram.get_image()` for either kind of diagram. */
  function DiagramImage(assets: map<string, Size>, d: Diagram): Result<Canvas>
  {
    match d
    case FA(c) => FAImage(assets, c)
    case FB(c) => FBImage(assets, c)
  }

  method GetImage(cache: Registry, d: Diagram) returns (r: Result<Canvas>)
    requires cache.Valid()
    modifies cache, cache.Repr
    ensures Advances(cache)
    ensures r == DiagramImage(cache.assets, d)
  {
    match d
    case FA(c) =>
      r := FAGetImage(cache, c);
    case FB(c) =>
      r := FBGetImage(cache, c);
  }
}
