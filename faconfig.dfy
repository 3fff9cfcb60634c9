/**
 * `FADiagram.__init__`: turning the query parameters of a FlashArray
 * request into its layout configuration: the model string cut into
 * generation, model number and release, the face and its options, the
 * PCI card of each of the four slots, and the datapacks of the chassis and
 * of every shelf.
 */
module FAConfig {
  import opened Wrappers
  import opened Text

  /** One line of a datapack table: module label, drive type, number of modules, size label. */
  datatype Datapack = Datapack(fmStr: string, fmType: string, modules: nat, size: string)

  /** The four PCI slots of a controller; `None` is an empty slot. */
  type PciSlots = s: seq<Option<string>> | |s| == 4 witness [None, None, None, None]

  datatype FaceConfig =
    | Front(fmLabel: bool, dpLabel: bool, bezel: bool)
    | Back(protocol: string, mezz: string, pci: PciSlots)

  /** The configuration of one shelf; a back-face shelf carries only its type. */
  datatype ShelfConfig =
    | FrontShelf(shelfType: string, datapacks: seq<Datapack>, dpLabel: bool, fmLabel: bool)
    | BackShelf(shelfType: string)

  datatype Config = Config(
    modelStr: string,
    generation: string,
    modelNum: int,
    direction: string,
    release: int,
    face: FaceConfig,
    chassisDatapacks: seq<Datapack>,
    shelves: seq<ShelfConfig>)

  function FaceName(face: FaceConfig): string { if face.Front? then "front" else "back" }

  /** `config["bezel"]` as a truth value; the back face has none. */
  predicate Bezel(face: FaceConfig) { face.Front? && face.bezel }

  function ShelfFace(s: ShelfConfig): string { if s.FrontShelf? then "front" else "back" }

  // ---- tables ---------------------------------------------------------------

  const ChassisDpSizes: map<string, Datapack> := map[
    "4.8" := Datapack("480GB", "sas", 10, "4.8"),
    "5" := Datapack("500GB", "sas", 10, "5"),
    "9.6" := Datapack("960GB", "sas", 10, "9.6"),
    "10" := Datapack("1TB", "sas", 10, "10"),
    "19.2" := Datapack("1.9TB", "sas", 10, "19.2"),
    "20" := Datapack("2TB", "sas", 10, "20"),
    "38" := Datapack("3.8TB", "sas", 10, "38"),
    "76" := Datapack("7.6TB", "sas", 10, "76"),
    "22" := Datapack("2.2TB", "nvme", 10, "22"),
    "45" := Datapack("4.5TB", "nvme", 10, "45"),
    "91" := Datapack("9.1TB", "nvme", 10, "91"),
    "183" := Datapack("18.3TB", "nvme", 10, "183"),
    "127" := Datapack("9.1TB", "nvme", 16, "127"),
    "275" := Datapack("18.3TB", "nvme", 15, "275")]

  const ShelfDpSizes: map<string, Datapack> := map[
    "11" := Datapack("960GB", "sas", 12, "11"),
    "22" := Datapack("1.9TB", "sas", 12, "22"),
    "45" := Datapack("3.8TB", "sas", 12, "45"),
    "90" := Datapack("7.6TB", "sas", 12, "90"),
    "31" := Datapack("2.2TB", "nvme", 14, "31"),
    "63" := Datapack("4.5TB", "nvme", 14, "63"),
    "127" := Datapack("9.1TB", "nvme", 14, "127"),
    "256" := Datapack("18.3TB", "nvme", 14, "256")]

  const NoCards: PciSlots := [None, None, None, None]

  /** The cards a model ships with, by `"fa-{generation}{model}r{release}-{protocol}"`. */
  const PciDefaults: map<string, PciSlots> := map[
    "fa-x10r2-fc" := [None, None, Some("2fc"), None],
    "fa-x20r2-fc" := [None, None, Some("2fc"), None],
    "fa-x50r2-fc" := [Some("4fc"), None, None, None],
    "fa-x70r2-fc" := [Some("4fc"), None, Some("2fc"), None],
    "fa-x90r2-fc" := [Some("4fc"), None, Some("2fc"), None],
    "fa-x10r2-eth" := NoCards,
    "fa-x20r2-eth" := NoCards,
    "fa-x50r2-eth" := [Some("2eth"), None, None, None],
    "fa-x70r2-eth" := [Some("2eth"), None, None, None],
    "fa-x90r2-eth" := [Some("2eth"), None, None, None],
    "fa-m10r2-fc" := [None, None, Some("2fc"), None],
    "fa-m20r2-fc" := [None, None, Some("2fc"), None],
    "fa-m50r2-fc" := [Some("2fc"), None, Some("2fc"), None],
    "fa-m70r2-fc" := [Some("4fc"), None, Some("2fc"), None],
    "fa-m10r2-eth" := NoCards,
    "fa-m20r2-eth" := [None, None, Some("2eth"), None],
    "fa-m50r2-eth" := [Some("2eth"), None, Some("2eth"), None],
    "fa-m70r2-eth" := [Some("2eth"), None, Some("2eth"), None],
    "fa-x70r1-eth" := [Some("2eth"), None, Some("2eth"), None],
    "fa-x70r1-fc" := [Some("4fc"), None, Some("2fc"), None]]

  // ---- PCI cards --------------------------------------------------------------

  function PciLookupKey(generation: string, modelNum: int, release: int, protocol: string): string
  {
    "fa-" + generation + IntToString(modelNum) + "r" + IntToString(release) + "-" + protocol
  }

  function DefaultPci(key: string): PciSlots
  {
    if key in PciDefaults then PciDefaults[key] else NoCards
  }

  /** The slots an add-on card may go into, in order of preference: PCI slots, none twice, slots 0 and 1 always among them. */
  function SlotOrder(card: string): (order: seq<nat>)
    ensures forall k :: 0 <= k < |order| ==> order[k] < 4
    ensures forall i, j :: 0 <= i < j < |order| ==> order[i] != order[j]
    ensures 0 in order && 1 in order
  {
    if card == "2fc" || card == "2eth" then [2, 0, 1, 3] else [0, 1]
  }

  /** The first slot of `order` that is empty, if any. */
  function FirstFree(slots: PciSlots, order: seq<nat>): (r: Option<nat>)
    requires forall k :: 0 <= k < |order| ==> order[k] < 4
    ensures r.None? ==> forall k :: 0 <= k < |order| ==> slots[order[k]].Some?
    ensures r.Some? ==> exists i :: 0 <= i < |order| && order[i] == r.value && slots[r.value].None?
                                   && forall j :: 0 <= j < i ==> slots[order[j]].Some?
  {
    if order == [] then None
    else if slots[order[0]].None? then Some(order[0])
    else
      var r := FirstFree(slots, order[1..]);
      if r.Some? then
        ghost var i :| 0 <= i < |order[1..]| && order[1..][i] == r.value && slots[r.value].None?
                       && forall j :: 0 <= j < i ==> slots[order[1..][j]].Some?;
        assert order[i + 1] == r.value && forall j :: 0 <= j < i + 1 ==> slots[order[j]].Some?;
        r
      else r
  }

  /** One add-on card goes into its first free slot; with no free slot it is dropped. */
  function PlaceCard(slots: PciSlots, card: string): (r: PciSlots)
    ensures forall s :: 0 <= s < 4 && slots[s].Some? ==> r[s] == slots[s]
    ensures r == slots <==> forall k :: 0 <= k < |SlotOrder(card)| ==> slots[SlotOrder(card)[k]].Some?
    ensures r != slots ==> exists i :: 0 <= i < |SlotOrder(card)| && r == slots[SlotOrder(card)[i] := Some(card)]
                                      && slots[SlotOrder(card)[i]].None?
                                      && forall j :: 0 <= j < i ==> slots[SlotOrder(card)[j]].Some?
  {
    match FirstFree(slots, SlotOrder(card))
    case None => slots
    case Some(s) =>
      assert slots[s := Some(card)][s] != slots[s];
      slots[s := Some(card)]
  }

  /** The add-on cards placed one after the other. */
  function PlaceCards(slots: PciSlots, cards: seq<string>): PciSlots
    decreases |cards|
  {
    if cards == [] then slots else PlaceCards(PlaceCard(slots, cards[0]), cards[1..])
  }

  /** A slot that holds a card keeps it, whatever add-on cards follow. */
  lemma {:induction false} PlaceCardsKeepsOccupied(slots: PciSlots, cards: seq<string>, s: nat)
    requires s < 4 && slots[s].Some?
    ensures PlaceCards(slots, cards)[s] == slots[s]
    decreases |cards|
  {
    if cards != [] {
      PlaceCardsKeepsOccupied(PlaceCard(slots, cards[0]), cards[1..], s);
    }
  }

  function CountEmpty(slots: PciSlots): nat
  {
    (if slots[0].None? then 1 else 0) + (if slots[1].None? then 1 else 0)
    + (if slots[2].None? then 1 else 0) + (if slots[3].None? then 1 else 0)
  }

  /** Every placed card takes an empty slot: n cards fill at most n slots, and no more than the empty ones. */
  lemma {:induction false} PlaceCardsFills(slots: PciSlots, cards: seq<string>)
    ensures CountEmpty(slots) - |cards| <= CountEmpty(PlaceCards(slots, cards)) <= CountEmpty(slots)
    decreases |cards|
  {
    if cards != [] {
      var next := PlaceCard(slots, cards[0]);
      if next != slots {
        var i :| 0 <= i < |SlotOrder(cards[0])| && next == slots[SlotOrder(cards[0])[i] := Some(cards[0])]
                 && slots[SlotOrder(cards[0])[i]].None?;
        assert CountEmpty(next) == CountEmpty(slots) - 1;
      }
      PlaceCardsFills(next, cards[1..]);
    }
  }

  function PciParam(x: nat): string { "pci." + NatToString(x) }

  /** `pci.N` parameters override slot N, whatever the defaults and add-on cards put there. */
  function Override(slots: PciSlots, params: Params): (r: PciSlots)
  {
    seq(4, x requires 0 <= x < 4 => if PciParam(x) in params then Some(params[PciParam(x)]) else slots[x])
  }

  /** The PCI configuration `_init_pci_cards` leaves in `config["pci_config"]`. */
  function PciConfigOf(generation: string, modelNum: int, release: int, protocol: string, params: Params): PciSlots
  {
    var initial := DefaultPci(PciLookupKey(generation, modelNum, release, protocol));
    var cards := if "addoncards" in params then PlaceCards(initial, Split(params["addoncards"], ',')) else initial;
    Override(cards, params)
  }

  /** What the configuration of a slot is: its override, else a card placed there, else the default. */
  lemma PciConfigSlot(generation: string, modelNum: int, release: int, protocol: string, params: Params, x: nat)
    requires x < 4
    ensures var initial := DefaultPci(PciLookupKey(generation, modelNum, release, protocol));
            var r := PciConfigOf(generation, modelNum, release, protocol, params);
      && (PciParam(x) in params ==> r[x] == Some(params[PciParam(x)]))
      && (PciParam(x) !in params && initial[x].Some? ==> r[x] == initial[x])
      && (PciParam(x) !in params && "addoncards" !in params ==> r[x] == initial[x])
  {
    var initial := DefaultPci(PciLookupKey(generation, modelNum, release, protocol));
    if "addoncards" in params && initial[x].Some? {
      PlaceCardsKeepsOccupied(initial, Split(params["addoncards"], ','), x);
    }
  }

  /** The inner loop of `_init_pci_cards`: one add-on card goes into the first empty slot of its order. */
  method PlaceCardIn(slots: array<Option<string>>, card: string)
    requires slots.Length == 4
    modifies slots
    ensures slots[..] == PlaceCard(old(slots[..]), card)
  {
    var order := SlotOrder(card);
    ghost var before: PciSlots := slots[..];
    var k := 0;
    while k < |order|
      invariant 0 <= k <= |order|
      invariant slots[..] == before
      invariant FirstFree(before, order) == FirstFree(before, order[k..])
    {
      var slot := order[k];
      if slots[slot].None? {
        slots[slot] := Some(card);
        return;
      }
      assert order[k..][1..] == order[k + 1..];
      k := k + 1;
    }
  }

  /** The outer loop over the comma-separated `addoncards`. */
  method PlaceCardsIn(slots: array<Option<string>>, cards: seq<string>)
    requires slots.Length == 4
    modifies slots
    ensures slots[..] == PlaceCards(old(slots[..]), cards)
  {
    ghost var initial: PciSlots := slots[..];
    assert cards[0..] == cards;
    for i := 0 to |cards|
      invariant PlaceCards(slots[..], cards[i..]) == PlaceCards(initial, cards)
    {
      PlaceCardIn(slots, cards[i]);
      assert cards[i..][1..] == cards[i + 1..];
    }
  }

  /** The `pci.N` loop: a parameter for slot N replaces whatever the slot holds. */
  method OverrideIn(slots: array<Option<string>>, params: Params)
    requires slots.Length == 4
    modifies slots
    ensures slots[..] == Override(old(slots[..]), params)
  {
    for x := 0 to 4
      invariant forall j :: 0 <= j < 4 ==>
        slots[j] == if j < x && PciParam(j) in params then Some(params[PciParam(j)]) else old(slots[j])
    {
      var slot := PciParam(x);
      if slot in params {
        slots[x] := Some(params[slot]);
      }
    }
  }

  /**
   * `_init_pci_cards`: the default cards of the model, then each add-on
   * card written into the first empty slot of its order, then the `pci.N`
   * overrides, all on one four-entry list updated in place.
   */
  method InitPciCards(generation: string, modelNum: int, release: int, protocol: string, params: Params)
    returns (pci: PciSlots)
    ensures pci == PciConfigOf(generation, modelNum, release, protocol, params)
  {
    var lookup := PciLookupKey(generation, modelNum, release, protocol);
    var initial := DefaultPci(lookup);
    var slots := new Option<string>[4](i requires 0 <= i < 4 => initial[i]);
    assert slots[..] == initial;
    if "addoncards" in params {
      PlaceCardsIn(slots, Split(params["addoncards"], ','));
    }
    OverrideIn(slots, params);
    pci := slots[..];
  }

  // ---- datapacks --------------------------------------------------------------

  function UnknownDp(chassis: bool, dp: string): Error
  {
    if chassis then UnknownChassisDp(dp) else UnknownShelfDp(dp)
  }

  /** The datapacks named by the `/`-separated entries of one part; `0` means none, anything unknown raises. */
  function LookupPacks(table: map<string, Datapack>, entries: seq<string>, chassis: bool): Result<seq<Datapack>>
  {
    if entries == [] then Ok([])
    else if entries[0] in table then Prepend([table[entries[0]]], LookupPacks(table, entries[1..], chassis))
    else if entries[0] == "0" then LookupPacks(table, entries[1..], chassis)
    else Err(UnknownDp(chassis, entries[0]))
  }

  /** The type of the last datapack seen, or the default when there is none. */
  function ShelfType(packs: seq<Datapack>, default: string): string
  {
    if packs == [] then default else packs[|packs| - 1].fmType
  }

  function ShelfOf(part: string, default: string, face: FaceConfig): Result<ShelfConfig>
  {
    match LookupPacks(ShelfDpSizes, Split(part, '/'), false)
    case Err(e) => Err(e)
    case Ok(packs) =>
      var shelfType := ShelfType(packs, default);
      Ok(if face.Front? then FrontShelf(shelfType, packs, face.dpLabel, face.fmLabel) else BackShelf(shelfType))
  }

  function ShelvesOf(parts: seq<string>, default: string, face: FaceConfig): Result<seq<ShelfConfig>>
  {
    if parts == [] then Ok([])
    else
      match ShelfOf(parts[0], default, face)
      case Err(e) => Err(e)
      case Ok(shelf) => Prepend([shelf], ShelvesOf(parts[1..], default, face))
  }

  function DefaultShelfType(generation: string): string
  {
    if 'm' in generation then "sas" else "nvme"
  }

  /** The chassis datapacks and the shelves `_init_datapacks` stores into the configuration. */
  function DatapacksOf(generation: string, face: FaceConfig, params: Params): Result<(seq<Datapack>, seq<ShelfConfig>)>
  {
    if "datapacks" !in params then Ok(([], []))
    else
      var parts := Split(params["datapacks"], '-');
      var chassis := if Bezel(face) then Ok([]) else LookupPacks(ChassisDpSizes, Split(parts[0], '/'), true);
      match chassis
      case Err(e) => Err(e)
      case Ok(packs) =>
        match ShelvesOf(parts[1..], DefaultShelfType(generation), face)
        case Err(e) => Err(e)
        case Ok(shelves) => Ok((packs, shelves))
  }

  /** A part parses exactly when each of its entries is a table key or `0`. */
  lemma {:induction false} LookupPacksOk(table: map<string, Datapack>, entries: seq<string>, chassis: bool)
    ensures LookupPacks(table, entries, chassis).Ok? <==>
            forall k :: 0 <= k < |entries| ==> entries[k] in table || entries[k] == "0"
  {
    if entries != [] {
      LookupPacksOk(table, entries[1..], chassis);
      assert forall k :: 1 <= k < |entries| ==> entries[k] == entries[1..][k - 1];
    }
  }

  /** A part that does not parse fails on its first unknown entry, and names it. */
  lemma {:induction false} LookupPacksFirstUnknown(table: map<string, Datapack>, entries: seq<string>, chassis: bool)
    requires LookupPacks(table, entries, chassis).Err?
    ensures exists i :: (0 <= i < |entries| && entries[i] !in table && entries[i] != "0"
      && (forall j :: 0 <= j < i ==> entries[j] in table || entries[j] == "0")
      && LookupPacks(table, entries, chassis).error == UnknownDp(chassis, entries[i]))
  {
    if entries[0] in table || entries[0] == "0" {
      LookupPacksFirstUnknown(table, entries[1..], chassis);
      var i :| 0 <= i < |entries[1..]| && entries[1..][i] !in table && entries[1..][i] != "0"
        && (forall j :: 0 <= j < i ==> entries[1..][j] in table || entries[1..][j] == "0")
        && LookupPacks(table, entries[1..], chassis).error == UnknownDp(chassis, entries[1..][i]);
      assert forall j :: 1 <= j < i + 1 ==> entries[j] == entries[1..][j - 1];
      assert entries[i + 1] == entries[1..][i];
    }
  }

  /** Reading one more entry at the end: a known one adds its datapack, `0` adds nothing, anything else raises. */
  lemma {:induction false} LookupPacksSnoc(table: map<string, Datapack>, entries: seq<string>, dp: string, chassis: bool)
    ensures LookupPacks(table, entries + [dp], chassis) ==
      match LookupPacks(table, entries, chassis)
      case Err(e) => Err(e)
      case Ok(packs) =>
        if dp in table then Ok(packs + [table[dp]])
        else if dp == "0" then Ok(packs)
        else Err(UnknownDp(chassis, dp))
  {
    if entries == [] {
      assert entries + [dp] == [dp];
      assert [dp][1..] == [];
      if dp in table {
        assert [table[dp]] + [] == [] + [table[dp]];
      }
    } else {
      assert (entries + [dp])[1..] == entries[1..] + [dp];
      LookupPacksSnoc(table, entries[1..], dp, chassis);
      var rest := LookupPacks(table, entries[1..], chassis);
      if entries[0] in table && rest.Ok? && dp in table {
        var head := [table[entries[0]]];
        assert head + (rest.value + [table[dp]]) == (head + rest.value) + [table[dp]];
      }
    }
  }

  /** `0` entries are ignored wherever they stand. */
  lemma {:induction false} LookupPacksSkipsZero(table: map<string, Datapack>, before: seq<string>, after: seq<string>, chassis: bool)
    requires "0" !in table
    ensures LookupPacks(table, before + ["0"] + after, chassis) == LookupPacks(table, before + after, chassis)
  {
    if before == [] {
      assert ([] + ["0"] + after)[1..] == after;
      assert [] + after == after;
    } else {
      assert (before + ["0"] + after)[1..] == before[1..] + ["0"] + after;
      assert (before + after)[1..] == before[1..] + after;
      LookupPacksSkipsZero(table, before[1..], after, chassis);
    }
  }

  /** A shelf's type is the type of its last recognised datapack, or the generation's default when there is none. */
  lemma ShelfTypeOfLast(entries: seq<string>, dp: string, default: string)
    requires LookupPacks(ShelfDpSizes, entries + [dp], false).Ok?
    ensures var packs := LookupPacks(ShelfDpSizes, entries + [dp], false).value;
            var prior := LookupPacks(ShelfDpSizes, entries, false);
      && prior.Ok?
      && (dp in ShelfDpSizes ==> ShelfType(packs, default) == ShelfDpSizes[dp].fmType)
      && (dp !in ShelfDpSizes ==> ShelfType(packs, default) == ShelfType(prior.value, default))
  {
    LookupPacksSnoc(ShelfDpSizes, entries, dp, false);
  }

  /** One shelf per `-`-separated part after the first; with no `datapacks` parameter, none at all. */
  lemma {:induction false} ShelvesOfLength(parts: seq<string>, default: string, face: FaceConfig)
    requires ShelvesOf(parts, default, face).Ok?
    ensures |ShelvesOf(parts, default, face).value| == |parts|
    ensures forall k :: 0 <= k < |parts| ==> ShelvesOf(parts, default, face).value[k].FrontShelf? == face.Front?
  {
    if parts != [] {
      ShelvesOfLength(parts[1..], default, face);
      var rest := ShelvesOf(parts[1..], default, face).value;
      assert forall k :: 1 <= k < |parts| ==> ShelvesOf(parts, default, face).value[k] == rest[k - 1];
    }
  }

  lemma DatapacksShape(generation: string, face: FaceConfig, params: Params)
    requires DatapacksOf(generation, face, params).Ok?
    ensures var r := DatapacksOf(generation, face, params).value;
      && ("datapacks" !in params ==> r.0 == [] && r.1 == [])
      && ("datapacks" in params ==> |r.1| == |Split(params["datapacks"], '-')| - 1)
      && (forall k :: 0 <= k < |r.1| ==> r.1[k].FrontShelf? == face.Front?)
      && (Bezel(face) ==> r.0 == [])
  {
    if "datapacks" in params {
      var parts := Split(params["datapacks"], '-');
      ShelvesOfLength(parts[1..], DefaultShelfType(generation), face);
    }
  }

  /** With a bezel the chassis part is never read: any error comes from a shelf part. */
  lemma BezelSkipsChassis(generation: string, face: FaceConfig, params: Params)
    requires Bezel(face) && DatapacksOf(generation, face, params).Err?
    ensures DatapacksOf(generation, face, params).error.UnknownShelfDp?
  {
    var parts := Split(params["datapacks"], '-');
    ShelvesOfErrors(parts[1..], DefaultShelfType(generation), face);
  }

  lemma {:induction false} ShelvesOfErrors(parts: seq<string>, default: string, face: FaceConfig)
    requires ShelvesOf(parts, default, face).Err?
    ensures ShelvesOf(parts, default, face).error.UnknownShelfDp?
  {
    var first := LookupPacks(ShelfDpSizes, Split(parts[0], '/'), false);
    if first.Err? {
      LookupPacksFirstUnknown(ShelfDpSizes, Split(parts[0], '/'), false);
    } else {
      ShelvesOfErrors(parts[1..], default, face);
    }
  }

  /** The chassis half of `_init_datapacks`: each `/`-separated entry of the first part, against the chassis table. */
  method ReadChassisPacks(part: string) returns (r: Result<seq<Datapack>>)
    ensures r == LookupPacks(ChassisDpSizes, Split(part, '/'), true)
  {
    var datapacks: seq<Datapack> := [];
    var entries := Split(part, '/');
    assert entries[0..] == entries;
    PrependNil(LookupPacks(ChassisDpSizes, entries, true));
    for i := 0 to |entries|
      invariant LookupPacks(ChassisDpSizes, entries, true)
                == Prepend(datapacks, LookupPacks(ChassisDpSizes, entries[i..], true))
    {
      var dp := entries[i];
      assert entries[i..][1..] == entries[i + 1..];
      if dp in ChassisDpSizes {
        PrependTwice(datapacks, [ChassisDpSizes[dp]], LookupPacks(ChassisDpSizes, entries[i + 1..], true));
        datapacks := datapacks + [ChassisDpSizes[dp]];
      } else if dp == "0" {
      } else {
        return Err(UnknownChassisDp(dp));
      }
    }
    assert entries[|entries|..] == [] && datapacks + [] == datapacks;
    return Ok(datapacks);
  }

  /** One shelf part: its datapacks against the shelf table, the shelf type following the last one read. */
  method ReadShelf(part: string, defaultShelfType: string, face: FaceConfig) returns (r: Result<ShelfConfig>)
    ensures r == ShelfOf(part, defaultShelfType, face)
  {
    var datapacks: seq<Datapack> := [];
    var shelfType := defaultShelfType;
    var entries := Split(part, '/');
    assert entries[0..] == entries;
    PrependNil(LookupPacks(ShelfDpSizes, entries, false));
    for i := 0 to |entries|
      invariant LookupPacks(ShelfDpSizes, entries, false)
                == Prepend(datapacks, LookupPacks(ShelfDpSizes, entries[i..], false))
      invariant shelfType == ShelfType(datapacks, defaultShelfType)
    {
      var dp := entries[i];
      assert entries[i..][1..] == entries[i + 1..];
      if dp in ShelfDpSizes {
        PrependTwice(datapacks, [ShelfDpSizes[dp]], LookupPacks(ShelfDpSizes, entries[i + 1..], false));
        datapacks := datapacks + [ShelfDpSizes[dp]];
        shelfType := ShelfDpSizes[dp].fmType;
      } else if dp == "0" {
      } else {
        return Err(UnknownShelfDp(dp));
      }
    }
    assert entries[|entries|..] == [] && datapacks + [] == datapacks;
    if face.Front? {
      r := Ok(FrontShelf(shelfType, datapacks, face.dpLabel, face.fmLabel));
    } else {
      r := Ok(BackShelf(shelfType));
    }
  }

  /**
   * `_init_datapacks`: split the `datapacks` parameter on `-`, read the
   * chassis part (unless a bezel hides it) and then every shelf part,
   * appending the shelves as it goes.
   */
  method InitDatapacks(generation: string, face: FaceConfig, params: Params)
    returns (r: Result<(seq<Datapack>, seq<ShelfConfig>)>)
    ensures r == DatapacksOf(generation, face, params)
  {
    var shelves: seq<ShelfConfig> := [];
    var chassisDatapacks: seq<Datapack> := [];
    if "datapacks" in params {
      var defaultShelfType := if 'm' in generation then "sas" else "nvme";
      var dpConfigs := Split(params["datapacks"], '-');
      var chassis := dpConfigs[0];
      var shelfConfigs: seq<string> := [];
      if |dpConfigs| > 1 {
        shelfConfigs := dpConfigs[1..];
      }
      assert shelfConfigs == dpConfigs[1..];
      if !Bezel(face) {
        chassisDatapacks :- ReadChassisPacks(chassis);
      }
      shelves :- ReadShelves(shelfConfigs, defaultShelfType, face);
    }
    return Ok((chassisDatapacks, shelves));
  }

  /** The loop of `_init_datapacks` over the shelf parts: one shelf per part, in order, or the first error. */
  method ReadShelves(shelfConfigs: seq<string>, defaultShelfType: string, face: FaceConfig)
    returns (r: Result<seq<ShelfConfig>>)
    ensures r == ShelvesOf(shelfConfigs, defaultShelfType, face)
  {
    var shelves: seq<ShelfConfig> := [];
    assert shelfConfigs[0..] == shelfConfigs;
    PrependNil(ShelvesOf(shelfConfigs, defaultShelfType, face));
    for s := 0 to |shelfConfigs|
      invariant ShelvesOf(shelfConfigs, defaultShelfType, face)
                == Prepend(shelves, ShelvesOf(shelfConfigs[s..], defaultShelfType, face))
    {
      var shelf :- ReadShelf(shelfConfigs[s], defaultShelfType, face);
      assert shelfConfigs[s..][1..] == shelfConfigs[s + 1..];
      PrependTwice(shelves, [shelf], ShelvesOf(shelfConfigs[s + 1..], defaultShelfType, face));
      shelves := shelves + [shelf];
    }
    assert shelfConfigs[|shelfConfigs|..] == [] && shelves + [] == shelves;
    return Ok(shelves);
  }

  // ---- the whole configuration -------------------------------------------------

  /** `params.get("bezel", False)`, with the strings `False`, `false`, `no` and `0` read as False. */
  predicate BezelOf(params: Params)
  {
    "bezel" in params && params["bezel"] != "" && params["bezel"] !in ["False", "false", "no", "0"]
  }

  function DefaultMezz(modelNum: int): string
  {
    if modelNum > 20 then "emezz" else "smezz"
  }

  /** The release: the digit after `r`, when the model string is long enough, else 1. */
  function ReleaseOf(modelStr: string): Result<int>
  {
    if 'r' in modelStr && |modelStr| > 7 then ToInt(Slice(modelStr, 7, 8)) else Ok(1)
  }

  /** The configuration `FADiagram(params)` builds, or the exception it raises. */
  function ConfigOf(params: Params): Result<Config>
  {
    if "model" !in params then Err(MissingParam("model"))
    else
      var modelStr := Lower(params["model"]);
      var generation := Slice(modelStr, 3, 4);
      var modelNum :- ToInt(Slice(modelStr, 4, 6));
      var direction := Lower(Get(params, "direction", "up"));
      var release :- ReleaseOf(modelStr);
      var face :=
        if Get(params, "face", "front") == "back" then
          var protocol := Lower(Get(params, "protocol", "fc"));
          Back(protocol, Get(params, "mezz", DefaultMezz(modelNum)),
               PciConfigOf(generation, modelNum, release, protocol, params))
        else
          Front("fm_label" in params, "dp_label" in params, BezelOf(params));
      var packs :- DatapacksOf(generation, face, params);
      Ok(Config(modelStr, generation, modelNum, direction, release, face, packs.0, packs.1))
  }

  /** `int()` of a single character succeeds exactly on a digit. */
  lemma ToIntOneChar(c: char)
    ensures ToInt([c]) == if IsDigit(c) then Ok(DigitValue(c)) else Err(BadInt([c]))
  {
    var t := StripRight(StripLeft([c]));
    if IsSpace(c) {
      assert StripLeft([c]) == StripLeft([]);
    } else {
      assert StripLeft([c]) == [c];
      assert StripRight([c]) == [c];
      if c == '-' || c == '+' {
        assert ParseDigits(t[1..]).None?;
      } else if IsDigit(c) {
        assert t == [c];
        assert [c][..0] == [];
        assert DigitsValue([c]) == DigitValue(c);
      }
    }
  }

  /** What `FADiagram.__init__` promises about face, bezel, mezzanine and release. */
  lemma ConfigFacts(params: Params)
    requires ConfigOf(params).Ok?
    ensures var c := ConfigOf(params).value;
      && c.modelStr == Lower(params["model"])
      && (c.face.Back? <==> Get(params, "face", "front") == "back")
      && (c.face.Back? ==> !Bezel(c.face) && c.face.mezz == Get(params, "mezz", if c.modelNum > 20 then "emezz" else "smezz"))
      && (c.face.Front? && "bezel" in params && params["bezel"] in ["False", "false", "no", "0"] ==> !Bezel(c.face))
      && (c.face.Front? ==> (c.face.fmLabel <==> "fm_label" in params) && (c.face.dpLabel <==> "dp_label" in params))
      && ('r' in c.modelStr && |c.modelStr| > 7 ==> IsDigit(c.modelStr[7]) && c.release == DigitValue(c.modelStr[7]))
      && (!('r' in c.modelStr && |c.modelStr| > 7) ==> c.release == 1)
  {
    var modelStr := Lower(params["model"]);
    if 'r' in modelStr && |modelStr| > 7 {
      assert Slice(modelStr, 7, 8) == [modelStr[7]];
      ToIntOneChar(modelStr[7]);
    }
  }

  /** A model string without a number at positions 4..5 is refused. */
  lemma ConfigNeedsModelNumber(params: Params)
    requires "model" in params && ToInt(Slice(Lower(params["model"]), 4, 6)).Err?
    ensures ConfigOf(params) == Err(BadInt(Slice(Lower(params["model"]), 4, 6)))
  {
  }

  /** `FADiagram.__init__`, field by field, calling `_init_pci_cards` on the back face and `_init_datapacks` on both. */
  method Init(params: Params) returns (r: Result<Config>)
    ensures r == ConfigOf(params)
  {
    if "model" !in params {
      return Err(MissingParam("model"));
    }
    var modelStr := Lower(params["model"]);
    var generation := Slice(modelStr, 3, 4);
    var modelNum :- ToInt(Slice(modelStr, 4, 6));
    var direction := Lower(Get(params, "direction", "up"));
    var release := 1;
    if 'r' in modelStr && |modelStr| > 7 {
      release :- ToInt(Slice(modelStr, 7, 8));
    }
    var faceName := Get(params, "face", "front");
    if faceName != "front" && faceName != "back" {
      faceName := "front";
    }
    var face: FaceConfig;
    if faceName == "back" {
      var protocol := Lower(Get(params, "protocol", "fc"));
      var defaultMezz := "smezz";
      if modelNum > 20 {
        defaultMezz := "emezz";
      }
      var mezz := Get(params, "mezz", defaultMezz);
      var pci := InitPciCards(generation, modelNum, release, protocol, params);
      face := Back(protocol, mezz, pci);
    } else {
      var bezel := "bezel" in params && params["bezel"] != "";
      if "bezel" in params && params["bezel"] in ["False", "false", "no", "0"] {
        bezel := false;
      }
      face := Front("fm_label" in params, "dp_label" in params, bezel);
    }
    var packs :- InitDatapacks(generation, face, params);
    return Ok(Config(modelStr, generation, modelNum, direction, release, face, packs.0, packs.1));
  }
}
