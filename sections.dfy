/**
 * `FAShelf` and `FAChassis`: one section of a FlashArray picture. Each
 * starts from a base asset and pastes flash modules into slots, draws
 * datapack capacity labels, NVRAM modules, PCI cards, the mezzanine card
 * and the model text onto it.
 */
module Sections {
  import opened Wrappers
  import opened Text
  import opened Geometry
  import opened AssetCache
  import opened Images
  import opened FAConfig

  // ---- flash-module slots -------------------------------------------------------

  /** Which slot table a section fills: an NVMe shelf, a SAS shelf, or a chassis of a generation. */
  datatype Bay = NvmeShelf | SasShelf | ChassisBay(generation: string)

  /** The number of slots a section fills: 28 on an NVMe shelf, 24 on a SAS shelf, 20 in a chassis. */
  function Capacity(bay: Bay): nat
  {
    match bay
    case NvmeShelf => 28
    case SasShelf => 24
    case ChassisBay(_) => 20
  }

  /**
   * The position list a section's loop indexes: an NVMe shelf uses the
   * FA//X chassis table, a SAS shelf its own, a chassis the table of its
   * generation (of whose 28 entries it fills only the first 20).
   * The ensures unfold the definition for the solver; the promises are stated on `SlotTable` and `SlotRangeClosed`.
   */
  function Table(bay: Bay): (t: seq<Point>)
    ensures Capacity(bay) <= |t|
    ensures bay.NvmeShelf? ==> |t| == 28 && forall i :: 0 <= i < 28 ==> t[i] == ChassisFmLoc("x", i)
    ensures bay.SasShelf? ==> |t| == 24 && forall i :: 0 <= i < 24 ==> t[i] == SasFmLoc(i)
    ensures bay.ChassisBay? ==> |t| == 28 && forall i :: 0 <= i < 28 ==> t[i] == ChassisFmLoc(bay.generation, i)
  {
    match bay
    case NvmeShelf => seq(28, i requires 0 <= i < 28 => ChassisFmLoc("x", i))
    case SasShelf => seq(24, i requires 0 <= i < 24 => SasFmLoc(i))
    case ChassisBay(g) => seq(28, i requires 0 <= i < 28 => ChassisFmLoc(g, i))
  }

  /** On an NVMe shelf the modules of slots 20 and up are turned a quarter. */
  predicate Rotated(bay: Bay, x: nat) { bay.NvmeShelf? && x >= 20 }

  /** A shelf places a datapack only when it has modules; a chassis places every datapack. */
  predicate Placed(bay: Bay, dp: Datapack) { bay.ChassisBay? || dp.modules > 0 }

  function FmLabelOf(dp: Datapack, fmLabel: bool): Option<FmLabel>
  {
    if fmLabel then Some(FmLabel(dp.fmStr, dp.fmType)) else None
  }

  /** The module pastes of one datapack: `n` slots of the position list `locs` from `cur` on, none past the capacity. */
  function SlotPastes(bay: Bay, locs: seq<Point>, caption: Option<FmLabel>, cur: nat, n: nat): seq<Op>
    requires Capacity(bay) <= |locs|
    decreases n
  {
    if n == 0 || Capacity(bay) <= cur then []
    else [Paste(Module(caption, Rotated(bay, cur)), locs[cur])] + SlotPastes(bay, locs, caption, cur + 1, n - 1)
  }

  /** The capacity label a SAS shelf (offsets 90, 0) or a chassis (130, 244) draws for a datapack starting at slot `start`. */
  function PackLabel(bay: Bay, dp: Datapack, start: nat): Op
  {
    if bay.ChassisBay? then DpLabel(dp.size + "TB", 130, 244, start > 9)
    else DpLabel(dp.size + "TB", 90, 0, start > 9)
  }

  /** What one datapack adds: its module pastes, then (on a SAS shelf or a chassis) its capacity label. */
  function PackOps(bay: Bay, locs: seq<Point>, dp: Datapack, cur: nat, fmLabel: bool, dpLabel: bool): seq<Op>
    requires Capacity(bay) <= |locs|
  {
    if !Placed(bay, dp) then []
    else SlotPastes(bay, locs, FmLabelOf(dp, fmLabel), cur, dp.modules)
         + (if dpLabel && !bay.NvmeShelf? then [PackLabel(bay, dp, cur)] else [])
  }

  /** The drawing the datapack loop does, modules counted on from slot `cur`. */
  function FmOps(bay: Bay, locs: seq<Point>, dps: seq<Datapack>, cur: nat, fmLabel: bool, dpLabel: bool): seq<Op>
    requires Capacity(bay) <= |locs|
    decreases |dps|
  {
    if dps == [] then []
    else PackOps(bay, locs, dps[0], cur, fmLabel, dpLabel) + FmOps(bay, locs, dps[1..], cur + dps[0].modules, fmLabel, dpLabel)
  }

  /** The NVMe shelf labels: one per datapack, the first on the left and every later one on the right. */
  function NvmeLabels(dps: seq<Datapack>): seq<Op>
  {
    seq(|dps|, k requires 0 <= k < |dps| => DpLabel(dps[k].size + "TB", 162, 50, k > 0))
  }

  predicate NeedsModule(bay: Bay, dps: seq<Datapack>)
  {
    exists k :: 0 <= k < |dps| && Placed(bay, dps[k])
  }

  /** The datapack loop's outcome: the module asset is fetched for every placed datapack and may be missing. */
  function FmResult(assets: map<string, Size>, bay: Bay, dps: seq<Datapack>, fmLabel: bool, dpLabel: bool)
    : Result<seq<Op>>
  {
    if NeedsModule(bay, dps) && ModuleKey !in assets then Err(MissingAsset(ModuleKey))
    else Ok(FmOps(bay, Table(bay), dps, 0, fmLabel, dpLabel))
  }

  function Total(dps: seq<Datapack>): nat
  {
    if dps == [] then 0 else dps[0].modules + Total(dps[1..])
  }

  // ---- reading the drawing back -----------------------------------------------------

  /** What one op contributes to the spots: a module paste's position, turn and label. */
  function SpotOf(op: Op): seq<(Point, bool, bool)>
  {
    if op.Paste? && op.overlay.Module? then [(op.at, op.overlay.rotated, op.overlay.caption.Some?)] else []
  }

  /** Where each module paste lands, whether it is turned, and whether it carries a module label. */
  function Spots(ops: seq<Op>): seq<(Point, bool, bool)>
  {
    if ops == [] then [] else SpotOf(ops[0]) + Spots(ops[1..])
  }

  /** The capacity labels, in drawing order. */
  function Labels(ops: seq<Op>): seq<Op>
  {
    if ops == [] then [] else (if ops[0].DpLabel? then [ops[0]] else []) + Labels(ops[1..])
  }

  lemma {:induction false} SpotsAppend(a: seq<Op>, b: seq<Op>)
    ensures Spots(a + b) == Spots(a) + Spots(b)
    decreases |a|
  {
    if a == [] {
      assert a + b == b;
    } else {
      assert (a + b)[0] == a[0];
      assert (a + b)[1..] == a[1..] + b;
      SpotsAppend(a[1..], b);
    }
  }

  lemma {:induction false} LabelsAppend(a: seq<Op>, b: seq<Op>)
    ensures Labels(a + b) == Labels(a) + Labels(b)
    decreases |a|
  {
    if a == [] {
      assert a + b == b;
    } else {
      assert (a + b)[0] == a[0];
      assert (a + b)[1..] == a[1..] + b;
      LabelsAppend(a[1..], b);
    }
  }

  lemma SpotsOne(op: Op)
    ensures Spots([op]) == SpotOf(op)
    ensures Labels([op]) == if op.DpLabel? then [op] else []
  {
    assert [op][1..] == [];
  }

  /** The reference layout: `n` slots from `lo` on, none past the capacity, each with its position and turn. */
  function SlotRange(bay: Bay, locs: seq<Point>, lo: nat, n: nat, labelled: bool): seq<(Point, bool, bool)>
    requires Capacity(bay) <= |locs|
    decreases n
  {
    if n == 0 || Capacity(bay) <= lo then []
    else [(locs[lo], Rotated(bay, lo), labelled)] + SlotRange(bay, locs, lo + 1, n - 1, labelled)
  }

  /** The slot range in closed form: slots `lo` up to `min(capacity, lo + n)`, in order. */
  lemma {:induction false} SlotRangeClosed(bay: Bay, locs: seq<Point>, lo: nat, n: nat, labelled: bool)
    requires Capacity(bay) <= |locs|
    ensures var r := SlotRange(bay, locs, lo, n, labelled);
      && |r| == (if Capacity(bay) <= lo then 0 else Min(Capacity(bay), lo + n) - lo)
      && forall j :: 0 <= j < |r| ==> lo + j < Capacity(bay) && r[j] == (locs[lo + j], Rotated(bay, lo + j), labelled)
    decreases n
  {
    if n > 0 && lo < Capacity(bay) {
      SlotRangeClosed(bay, locs, lo + 1, n - 1, labelled);
      var r := SlotRange(bay, locs, lo, n, labelled);
      var rest := SlotRange(bay, locs, lo + 1, n - 1, labelled);
      assert forall j :: 1 <= j < |r| ==> r[j] == rest[j - 1];
    }
  }

  lemma SlotRangeCons(bay: Bay, locs: seq<Point>, lo: nat, n: nat, labelled: bool)
    requires Capacity(bay) <= |locs| && 0 < n && lo < Capacity(bay)
    ensures SlotRange(bay, locs, lo, n, labelled)
            == [(locs[lo], Rotated(bay, lo), labelled)] + SlotRange(bay, locs, lo + 1, n - 1, labelled)
  {
  }

  /** Filling `m` slots and then `t` more is filling `m + t` slots. */
  lemma {:induction false} SlotRangeConcat(bay: Bay, locs: seq<Point>, lo: nat, m: nat, t: nat, labelled: bool)
    requires Capacity(bay) <= |locs|
    ensures SlotRange(bay, locs, lo, m, labelled) + SlotRange(bay, locs, lo + m, t, labelled)
            == SlotRange(bay, locs, lo, m + t, labelled)
    decreases m
  {
    if m == 0 {
      assert [] + SlotRange(bay, locs, lo, t, labelled) == SlotRange(bay, locs, lo, t, labelled);
    } else if Capacity(bay) <= lo {
      assert SlotRange(bay, locs, lo + m, t, labelled) == [];
    } else {
      var x := [(locs[lo], Rotated(bay, lo), labelled)];
      var mid := SlotRange(bay, locs, lo + 1, m - 1, labelled);
      var tail := SlotRange(bay, locs, lo + m, t, labelled);
      var rest := SlotRange(bay, locs, lo + 1, m + t - 1, labelled);
      SlotRangeConcat(bay, locs, lo + 1, m - 1, t, labelled);
      assert mid + tail == rest;
      SlotRangeCons(bay, locs, lo, m, labelled);
      SlotRangeCons(bay, locs, lo, m + t, labelled);
      Glue(x, mid, tail, rest, SlotRange(bay, locs, lo, m, labelled), SlotRange(bay, locs, lo, m + t, labelled));
    }
  }

  lemma Glue(x: seq<(Point, bool, bool)>, mid: seq<(Point, bool, bool)>, tail: seq<(Point, bool, bool)>,
             rest: seq<(Point, bool, bool)>, left: seq<(Point, bool, bool)>, whole: seq<(Point, bool, bool)>)
    requires mid + tail == rest && left == x + mid && whole == x + rest
    ensures left + tail == whole
  {
    assert (x + mid) + tail == x + (mid + tail);
  }

  /** Joining two drawings joins what they show: the generic step every read-back proof goes through. */
  lemma SpotsJoin(bay: Bay, locs: seq<Point>, whole: seq<Op>, head: seq<Op>, tail: seq<Op>,
                  lo: nat, m: nat, t: nat, n: nat, labelled: bool)
    requires Capacity(bay) <= |locs|
    requires whole == head + tail && n == m + t
    requires Spots(head) == SlotRange(bay, locs, lo, m, labelled)
    requires Spots(tail) == SlotRange(bay, locs, lo + m, t, labelled)
    ensures Spots(whole) == SlotRange(bay, locs, lo, n, labelled)
  {
    SpotsAppend(head, tail);
    SlotRangeConcat(bay, locs, lo, m, t, labelled);
  }

  lemma LabelsJoin(whole: seq<Op>, head: seq<Op>, tail: seq<Op>, lh: seq<Op>, lt: seq<Op>, target: seq<Op>)
    requires whole == head + tail && target == lh + lt
    requires Labels(head) == lh && Labels(tail) == lt
    ensures Labels(whole) == target
  {
    LabelsAppend(head, tail);
  }

  /** Appending a drawing that shows no module and no label leaves what is shown unchanged. */
  lemma JoinPlain(whole: seq<Op>, head: seq<Op>, tail: seq<Op>)
    requires whole == head + tail && Spots(tail) == [] && Labels(tail) == []
    ensures Spots(whole) == Spots(head) && Labels(whole) == Labels(head)
  {
    SpotsAppend(head, tail);
    LabelsAppend(head, tail);
    assert Spots(head) + [] == Spots(head);
    assert Labels(head) + [] == Labels(head);
  }

  lemma SpotsPlain(whole: seq<Op>, head: seq<Op>, tail: seq<Op>)
    requires whole == head + tail && Spots(tail) == []
    ensures Spots(whole) == Spots(head)
  {
    SpotsAppend(head, tail);
    assert Spots(head) + [] == Spots(head);
  }

  lemma {:induction false} SpotsOfPastes(bay: Bay, locs: seq<Point>, caption: Option<FmLabel>, cur: nat, n: nat)
    requires Capacity(bay) <= |locs|
    ensures Spots(SlotPastes(bay, locs, caption, cur, n)) == SlotRange(bay, locs, cur, n, caption.Some?)
    decreases n
  {
    if n > 0 && cur < Capacity(bay) {
      var p := Paste(Module(caption, Rotated(bay, cur)), locs[cur]);
      var rest := SlotPastes(bay, locs, caption, cur + 1, n - 1);
      SpotsOfPastes(bay, locs, caption, cur + 1, n - 1);
      SpotsOne(p);
      SpotsAppend([p], rest);
      SlotRangeCons(bay, locs, cur, n, caption.Some?);
    }
  }

  lemma {:induction false} LabelsOfPastes(bay: Bay, locs: seq<Point>, caption: Option<FmLabel>, cur: nat, n: nat)
    requires Capacity(bay) <= |locs|
    ensures Labels(SlotPastes(bay, locs, caption, cur, n)) == []
    decreases n
  {
    if n > 0 && cur < Capacity(bay) {
      var p := Paste(Module(caption, Rotated(bay, cur)), locs[cur]);
      var rest := SlotPastes(bay, locs, caption, cur + 1, n - 1);
      LabelsOfPastes(bay, locs, caption, cur + 1, n - 1);
      SpotsOne(p);
      LabelsJoin(SlotPastes(bay, locs, caption, cur, n), [p], rest, [], [], []);
    }
  }

  /** One datapack's modules read back: exactly its slots. */
  lemma PackOpsSpots(bay: Bay, locs: seq<Point>, dp: Datapack, cur: nat, fmLabel: bool, dpLabel: bool)
    requires Capacity(bay) <= |locs|
    ensures Spots(PackOps(bay, locs, dp, cur, fmLabel, dpLabel)) == SlotRange(bay, locs, cur, dp.modules, fmLabel)
  {
    if Placed(bay, dp) {
      var pastes := SlotPastes(bay, locs, FmLabelOf(dp, fmLabel), cur, dp.modules);
      var tagged := if dpLabel && !bay.NvmeShelf? then [PackLabel(bay, dp, cur)] else [];
      SpotsOfPastes(bay, locs, FmLabelOf(dp, fmLabel), cur, dp.modules);
      if tagged != [] {
        SpotsOne(PackLabel(bay, dp, cur));
      }
      SpotsPlain(PackOps(bay, locs, dp, cur, fmLabel, dpLabel), pastes, tagged);
    } else {
      assert dp.modules == 0;
    }
  }

  /** One datapack's labels read back: its own label, when one is drawn. */
  lemma PackOpsLabels(bay: Bay, locs: seq<Point>, dp: Datapack, cur: nat, fmLabel: bool, dpLabel: bool)
    requires Capacity(bay) <= |locs|
    ensures Labels(PackOps(bay, locs, dp, cur, fmLabel, dpLabel))
            == if Placed(bay, dp) && dpLabel && !bay.NvmeShelf? then [PackLabel(bay, dp, cur)] else []
  {
    if Placed(bay, dp) {
      var pastes := SlotPastes(bay, locs, FmLabelOf(dp, fmLabel), cur, dp.modules);
      var tagged := if dpLabel && !bay.NvmeShelf? then [PackLabel(bay, dp, cur)] else [];
      LabelsOfPastes(bay, locs, FmLabelOf(dp, fmLabel), cur, dp.modules);
      if tagged != [] {
        SpotsOne(PackLabel(bay, dp, cur));
      }
      LabelsJoin(PackOps(bay, locs, dp, cur, fmLabel, dpLabel), pastes, tagged, [], Labels(tagged), tagged);
    }
  }

  lemma FmOpsCons(bay: Bay, locs: seq<Point>, dps: seq<Datapack>, cur: nat, fmLabel: bool, dpLabel: bool)
    requires Capacity(bay) <= |locs| && dps != []
    ensures FmOps(bay, locs, dps, cur, fmLabel, dpLabel)
            == PackOps(bay, locs, dps[0], cur, fmLabel, dpLabel) + FmOps(bay, locs, dps[1..], cur + dps[0].modules, fmLabel, dpLabel)
    ensures Total(dps) == dps[0].modules + Total(dps[1..])
  {
  }

  /**
   * The datapack loop fills slots consecutively from slot `cur`, one module
   * per slot, and stops at the capacity of the section: its module pastes
   * are the reference layout of `Total(dps)` slots from `cur` on.
   */
  lemma {:induction false} FmOpsSpots(bay: Bay, locs: seq<Point>, dps: seq<Datapack>, cur: nat, fmLabel: bool, dpLabel: bool)
    requires Capacity(bay) <= |locs|
    ensures Spots(FmOps(bay, locs, dps, cur, fmLabel, dpLabel)) == SlotRange(bay, locs, cur, Total(dps), fmLabel)
    decreases |dps|
  {
    if dps != [] {
      var dp, rest, next := dps[0], dps[1..], cur + dps[0].modules;
      FmOpsCons(bay, locs, dps, cur, fmLabel, dpLabel);
      FmOpsSpots(bay, locs, rest, next, fmLabel, dpLabel);
      PackOpsSpots(bay, locs, dp, cur, fmLabel, dpLabel);
      SpotsJoin(bay, locs, FmOps(bay, locs, dps, cur, fmLabel, dpLabel), PackOps(bay, locs, dp, cur, fmLabel, dpLabel),
                FmOps(bay, locs, rest, next, fmLabel, dpLabel), cur, dp.modules, Total(rest), Total(dps), fmLabel);
    }
  }

  /** Start of datapack `k`: the modules of the datapacks before it. */
  function Start(dps: seq<Datapack>, k: nat): nat
    requires k <= |dps|
  {
    Total(dps[..k])
  }

  /** The reference labelling: datapack k labelled by its own start slot. */
  function ClosedLabels(bay: Bay, dps: seq<Datapack>, cur: nat): seq<Op>
  {
    seq(|dps|, k requires 0 <= k < |dps| => PackLabel(bay, dps[k], cur + Start(dps, k)))
  }

  lemma ClosedLabelsCons(bay: Bay, dps: seq<Datapack>, cur: nat)
    requires dps != []
    ensures ClosedLabels(bay, dps, cur)
            == [PackLabel(bay, dps[0], cur)] + ClosedLabels(bay, dps[1..], cur + dps[0].modules)
  {
    var want := ClosedLabels(bay, dps, cur);
    var rest := ClosedLabels(bay, dps[1..], cur + dps[0].modules);
    forall k | 1 <= k < |dps|
      ensures want[k] == rest[k - 1]
    {
      assert dps[..k][1..] == dps[1..][..k - 1];
      assert dps[1..][k - 1] == dps[k];
      assert cur + Start(dps, k) == cur + dps[0].modules + Start(dps[1..], k - 1);
    }
    assert dps[..0] == [];
    assert want[0] == PackLabel(bay, dps[0], cur);
  }

  /**
   * On a SAS shelf or in a chassis, with labels on and every datapack
   * placed, datapack k gets exactly one label, with its size, on the right
   * half exactly when it starts past slot 9.
   */
  lemma {:induction false} FmOpsLabels(bay: Bay, locs: seq<Point>, dps: seq<Datapack>, cur: nat, fmLabel: bool)
    requires Capacity(bay) <= |locs| && !bay.NvmeShelf?
    requires forall k :: 0 <= k < |dps| ==> Placed(bay, dps[k])
    ensures Labels(FmOps(bay, locs, dps, cur, fmLabel, true)) == ClosedLabels(bay, dps, cur)
    decreases |dps|
  {
    if dps != [] {
      var dp, rest, next := dps[0], dps[1..], cur + dps[0].modules;
      FmOpsCons(bay, locs, dps, cur, fmLabel, true);
      PackOpsLabels(bay, locs, dp, cur, fmLabel, true);
      FmOpsLabels(bay, locs, rest, next, fmLabel);
      ClosedLabelsCons(bay, dps, cur);
      LabelsJoin(FmOps(bay, locs, dps, cur, fmLabel, true), PackOps(bay, locs, dp, cur, fmLabel, true),
                 FmOps(bay, locs, rest, next, fmLabel, true),
                 [PackLabel(bay, dp, cur)], ClosedLabels(bay, rest, next),
                 ClosedLabels(bay, dps, cur));
    }
  }

  /** Without `dp_label` the datapack loop draws no label, and the NVMe loop never does. */
  lemma {:induction false} FmOpsNoLabels(bay: Bay, locs: seq<Point>, dps: seq<Datapack>, cur: nat, fmLabel: bool, dpLabel: bool)
    requires Capacity(bay) <= |locs| && (!dpLabel || bay.NvmeShelf?)
    ensures Labels(FmOps(bay, locs, dps, cur, fmLabel, dpLabel)) == []
    decreases |dps|
  {
    if dps != [] {
      var dp, rest, next := dps[0], dps[1..], cur + dps[0].modules;
      FmOpsCons(bay, locs, dps, cur, fmLabel, dpLabel);
      PackOpsLabels(bay, locs, dp, cur, fmLabel, dpLabel);
      FmOpsNoLabels(bay, locs, rest, next, fmLabel, dpLabel);
      LabelsJoin(FmOps(bay, locs, dps, cur, fmLabel, dpLabel), PackOps(bay, locs, dp, cur, fmLabel, dpLabel),
                 FmOps(bay, locs, rest, next, fmLabel, dpLabel), [], [], []);
    }
  }

  /** The datapack loop pastes only module pictures and draws only labels. */
  predicate OnlyFms(ops: seq<Op>)
  {
    forall k :: 0 <= k < |ops| ==> (ops[k].Paste? && ops[k].overlay.Module?) || ops[k].DpLabel?
  }

  lemma OnlyFmsJoin(whole: seq<Op>, head: seq<Op>, tail: seq<Op>)
    requires whole == head + tail && OnlyFms(head) && OnlyFms(tail)
    ensures OnlyFms(whole)
  {
    assert forall k :: |head| <= k < |whole| ==> whole[k] == tail[k - |head|];
  }

  lemma {:induction false} SlotPastesOnlyFms(bay: Bay, locs: seq<Point>, caption: Option<FmLabel>, cur: nat, n: nat)
    requires Capacity(bay) <= |locs|
    ensures OnlyFms(SlotPastes(bay, locs, caption, cur, n))
    decreases n
  {
    if n > 0 && cur < Capacity(bay) {
      SlotPastesOnlyFms(bay, locs, caption, cur + 1, n - 1);
      var p := Paste(Module(caption, Rotated(bay, cur)), locs[cur]);
      OnlyFmsJoin(SlotPastes(bay, locs, caption, cur, n), [p], SlotPastes(bay, locs, caption, cur + 1, n - 1));
    }
  }

  lemma PackOpsOnlyFms(bay: Bay, locs: seq<Point>, dp: Datapack, cur: nat, fmLabel: bool, dpLabel: bool)
    requires Capacity(bay) <= |locs|
    ensures OnlyFms(PackOps(bay, locs, dp, cur, fmLabel, dpLabel))
  {
    if Placed(bay, dp) {
      SlotPastesOnlyFms(bay, locs, FmLabelOf(dp, fmLabel), cur, dp.modules);
      var tagged := if dpLabel && !bay.NvmeShelf? then [PackLabel(bay, dp, cur)] else [];
      OnlyFmsJoin(PackOps(bay, locs, dp, cur, fmLabel, dpLabel), SlotPastes(bay, locs, FmLabelOf(dp, fmLabel), cur, dp.modules), tagged);
    }
  }

  lemma {:induction false} FmOpsOnlyFms(bay: Bay, locs: seq<Point>, dps: seq<Datapack>, cur: nat, fmLabel: bool, dpLabel: bool)
    requires Capacity(bay) <= |locs|
    ensures OnlyFms(FmOps(bay, locs, dps, cur, fmLabel, dpLabel))
    decreases |dps|
  {
    if dps != [] {
      var dp, rest, next := dps[0], dps[1..], cur + dps[0].modules;
      FmOpsCons(bay, locs, dps, cur, fmLabel, dpLabel);
      FmOpsOnlyFms(bay, locs, rest, next, fmLabel, dpLabel);
      PackOpsOnlyFms(bay, locs, dp, cur, fmLabel, dpLabel);
      OnlyFmsJoin(FmOps(bay, locs, dps, cur, fmLabel, dpLabel), PackOps(bay, locs, dp, cur, fmLabel, dpLabel),
                  FmOps(bay, locs, rest, next, fmLabel, dpLabel));
    }
  }

  // ---- the datapack loop, through the registry ------------------------------------------

  lemma AppendAssoc(a: seq<Op>, b: seq<Op>, c: seq<Op>)
    ensures a + (b + c) == (a + b) + c
  {
  }

  /** `get_chassis_fm_loc()`, `get_sas_fm_loc()` or `get_chassis_fm_loc(generation)`: the position list the section's loop indexes. */
  method SlotTable(bay: Bay) returns (table: seq<Option<Point>>)
    ensures |table| == |Table(bay)|
    ensures forall i :: 0 <= i < |table| ==> table[i] == Some(Table(bay)[i])
  {
    match bay {
      case NvmeShelf => table := GetChassisFmLoc("x");
      case SasShelf => table := GetSasFmLoc();
      case ChassisBay(g) => table := GetChassisFmLoc(g);
    }
  }

  /** The inner paste loop of one datapack, over the position list `table` holds. */
  method PasteModules(bay: Bay, ghost locs: seq<Point>, table: seq<Option<Point>>, caption: Option<FmLabel>, cur: nat, n: nat)
    returns (ops: seq<Op>)
    requires Capacity(bay) <= |locs| == |table|
    requires forall i :: 0 <= i < |table| ==> table[i] == Some(locs[i])
    ensures ops == SlotPastes(bay, locs, caption, cur, n)
  {
    ops := [];
    var end := Min(Capacity(bay), cur + n);
    var x := cur;
    assert [] + SlotPastes(bay, locs, caption, cur, n) == SlotPastes(bay, locs, caption, cur, n);
    while x < end
      invariant cur <= x <= cur + n
      invariant x < end || x == cur || x == end
      invariant ops + SlotPastes(bay, locs, caption, x, cur + n - x) == SlotPastes(bay, locs, caption, cur, n)
    {
      var p := Paste(Module(caption, Rotated(bay, x)), table[x].value);
      var rest := SlotPastes(bay, locs, caption, x + 1, cur + n - x - 1);
      assert SlotPastes(bay, locs, caption, x, cur + n - x) == [p] + rest;
      AppendAssoc(ops, [p], rest);
      ops := ops + [p];
      x := x + 1;
    }
    assert SlotPastes(bay, locs, caption, x, cur + n - x) == [];
    assert ops + [] == ops;
  }

  /** One turn of the datapack loop: a datapack that is placed fetches a module picture, pastes it into its slots and is labelled. */
  method AddPack(cache: Registry, bay: Bay, dp: Datapack, cur: nat, fmLabel: bool, dpLabel: bool)
    returns (r: Result<seq<Op>>)
    requires cache.Valid()
    modifies cache, cache.Repr
    ensures Advances(cache)
    ensures r == if Placed(bay, dp) && ModuleKey !in cache.assets then Err(MissingAsset(ModuleKey))
                 else Ok(PackOps(bay, Table(bay), dp, cur, fmLabel, dpLabel))
  {
    if !Placed(bay, dp) {
      return Ok([]);
    }
    var fm :- Acquire(cache, ModuleKey);
    var table := SlotTable(bay);
    var ops := PasteModules(bay, Table(bay), table, FmLabelOf(dp, fmLabel), cur, dp.modules);
    if dpLabel && !bay.NvmeShelf? {
      ops := ops + [PackLabel(bay, dp, cur)];
    } else {
      assert ops + [] == ops;
    }
    return Ok(ops);
  }

  /** The datapack loop's drawing from datapack `i` on is datapack `i`'s drawing followed by the rest. */
  lemma FmOpsAt(bay: Bay, locs: seq<Point>, dps: seq<Datapack>, i: nat, cur: nat, fmLabel: bool, dpLabel: bool)
    requires Capacity(bay) <= |locs| && i < |dps|
    ensures FmOps(bay, locs, dps[i..], cur, fmLabel, dpLabel)
            == PackOps(bay, locs, dps[i], cur, fmLabel, dpLabel) + FmOps(bay, locs, dps[i + 1..], cur + dps[i].modules, fmLabel, dpLabel)
  {
    assert dps[i..][1..] == dps[i + 1..];
    FmOpsCons(bay, locs, dps[i..], cur, fmLabel, dpLabel);
  }

  /** Moving datapack `i`'s drawing from the rest of the loop to the part already drawn. */
  lemma FmOpsStep(bay: Bay, locs: seq<Point>, dps: seq<Datapack>, i: nat, cur: nat, fmLabel: bool, dpLabel: bool,
                  ops: seq<Op>, head: seq<Op>)
    requires Capacity(bay) <= |locs| && i < |dps|
    requires ops + FmOps(bay, locs, dps[i..], cur, fmLabel, dpLabel) == FmOps(bay, locs, dps, 0, fmLabel, dpLabel)
    requires head == PackOps(bay, locs, dps[i], cur, fmLabel, dpLabel)
    ensures (ops + head) + FmOps(bay, locs, dps[i + 1..], cur + dps[i].modules, fmLabel, dpLabel)
            == FmOps(bay, locs, dps, 0, fmLabel, dpLabel)
  {
    FmOpsAt(bay, locs, dps, i, cur, fmLabel, dpLabel);
    AppendAssoc(ops, head, FmOps(bay, locs, dps[i + 1..], cur + dps[i].modules, fmLabel, dpLabel));
  }

  /** Turn `i` of the datapack loop, carried from the part of the drawing already made. */
  method AddFmsTurn(cache: Registry, bay: Bay, dps: seq<Datapack>, i: nat, cur: nat, ops: seq<Op>, fmLabel: bool, dpLabel: bool)
    returns (r: Result<seq<Op>>)
    requires cache.Valid() && i < |dps|
    requires ops + FmOps(bay, Table(bay), dps[i..], cur, fmLabel, dpLabel) == FmOps(bay, Table(bay), dps, 0, fmLabel, dpLabel)
    modifies cache, cache.Repr
    ensures Advances(cache)
    ensures r.Err? <==> Placed(bay, dps[i]) && ModuleKey !in cache.assets
    ensures r.Err? ==> NeedsModule(bay, dps) && r.error == MissingAsset(ModuleKey)
    ensures r.Ok? ==> r.value + FmOps(bay, Table(bay), dps[i + 1..], cur + dps[i].modules, fmLabel, dpLabel)
                      == FmOps(bay, Table(bay), dps, 0, fmLabel, dpLabel)
  {
    var step := AddPack(cache, bay, dps[i], cur, fmLabel, dpLabel);
    if step.Err? {
      assert Placed(bay, dps[i]);
      return Err(step.error);
    }
    FmOpsStep(bay, Table(bay), dps, i, cur, fmLabel, dpLabel, ops, step.value);
    return Ok(ops + step.value);
  }

  /**
   * `add_nvme_fms`, `add_sas_fms` and `FAChassis.add_fms`: walk the
   * datapacks, fetch a module picture for each one placed, paste it into
   * its slots and, off an NVMe shelf, draw the datapack's label.
   */
  method AddFms(cache: Registry, bay: Bay, dps: seq<Datapack>, fmLabel: bool, dpLabel: bool)
    returns (r: Result<seq<Op>>)
    requires cache.Valid()
    modifies cache, cache.Repr
    ensures Advances(cache)
    ensures r == FmResult(cache.assets, bay, dps, fmLabel, dpLabel)
  {
    var ops: seq<Op> := [];
    var cur: nat := 0;
    assert dps[0..] == dps;
    assert [] + FmOps(bay, Table(bay), dps, 0, fmLabel, dpLabel) == FmOps(bay, Table(bay), dps, 0, fmLabel, dpLabel);
    for i := 0 to |dps|
      invariant Advances(cache)
      invariant ModuleKey !in cache.assets ==> forall k :: 0 <= k < i ==> !Placed(bay, dps[k])
      invariant ops + FmOps(bay, Table(bay), dps[i..], cur, fmLabel, dpLabel) == FmOps(bay, Table(bay), dps, 0, fmLabel, dpLabel)
    {
      var turn := AddFmsTurn(cache, bay, dps, i, cur, ops, fmLabel, dpLabel);
      if turn.Err? {
        return Err(turn.error);
      }
      ops := turn.value;
      cur := cur + dps[i].modules;
    }
    assert dps[|dps|..] == [] && ops + [] == ops;
    return Ok(ops);
  }

  /** The label loop of `add_nvme_fms`: `right` starts false and is true from the second datapack on. */
  method AddNvmeLabels(dps: seq<Datapack>) returns (ops: seq<Op>)
    ensures ops == NvmeLabels(dps)
  {
    ops := [];
    var right := false;
    for k := 0 to |dps|
      invariant right <==> k > 0
      invariant ops == NvmeLabels(dps[..k])
    {
      ops := ops + [DpLabel(dps[k].size + "TB", 162, 50, right)];
      right := true;
      assert dps[..k + 1][..k] == dps[..k];
    }
    assert dps[..|dps|] == dps;
  }

  // ---- FAShelf ---------------------------------------------------------------------------

  function ShelfKey(shelf: ShelfConfig): string
  {
    "png/pure_fa_" + shelf.shelfType + "_shelf_" + ShelfFace(shelf) + ".png"
  }

  function ShelfBay(shelfType: string): Bay
  {
    if shelfType == "nvme" then NvmeShelf else SasShelf
  }

  /** The front of a shelf: the datapack loop, then the NVMe labels. */
  function ShelfOps(assets: map<string, Size>, shelfType: string, dps: seq<Datapack>, dpLabel: bool, fmLabel: bool)
    : Result<seq<Op>>
  {
    var bay := ShelfBay(shelfType);
    var fms :- FmResult(assets, bay, dps, fmLabel, dpLabel);
    Ok(fms + (if bay.NvmeShelf? && dpLabel then NvmeLabels(dps) else []))
  }

  /** The section `FAShelf(shelf).get_image()` returns, or the exception it raises. */
  function ShelfImage(assets: map<string, Size>, shelf: ShelfConfig): Result<Section>
  {
    var key := ShelfKey(shelf);
    var base :- Fetch(assets, key);
    match shelf
    case BackShelf(_) => Ok(Section(key, base, []))
    case FrontShelf(shelfType, dps, dpLabel, fmLabel) =>
      var ops :- ShelfOps(assets, shelfType, dps, dpLabel, fmLabel);
      Ok(Section(key, base, ops))
  }

  lemma {:induction false} LabelsOfLabels(ops: seq<Op>)
    requires forall k :: 0 <= k < |ops| ==> ops[k].DpLabel?
    ensures Spots(ops) == [] && Labels(ops) == ops
  {
    if ops != [] {
      LabelsOfLabels(ops[1..]);
      assert [ops[0]] + ops[1..] == ops;
    }
  }

  /**
   * The front of a shelf: modules in the first `min(capacity, total
   * modules)` slots of its table, and the capacity labels of its kind.
   */
  lemma ShelfOpsShape(assets: map<string, Size>, shelfType: string, dps: seq<Datapack>, dpLabel: bool, fmLabel: bool)
    requires ShelfOps(assets, shelfType, dps, dpLabel, fmLabel).Ok?
    ensures var ops := ShelfOps(assets, shelfType, dps, dpLabel, fmLabel).value;
            var bay := ShelfBay(shelfType);
      && Spots(ops) == SlotRange(bay, Table(bay), 0, Total(dps), fmLabel)
      && (!dpLabel ==> Labels(ops) == [])
      && (bay.NvmeShelf? && dpLabel ==> Labels(ops) == NvmeLabels(dps))
  {
    var bay := ShelfBay(shelfType);
    var locs := Table(bay);
    var fms := FmOps(bay, locs, dps, 0, fmLabel, dpLabel);
    var labels := if bay.NvmeShelf? && dpLabel then NvmeLabels(dps) else [];
    SpotsAppend(fms, labels);
    LabelsAppend(fms, labels);
    FmOpsSpots(bay, locs, dps, 0, fmLabel, dpLabel);
    if !dpLabel || bay.NvmeShelf? {
      FmOpsNoLabels(bay, locs, dps, 0, fmLabel, dpLabel);
    }
    LabelsOfLabels(labels);
  }

  /** A shelf section: the base picture of its type and face, and on the back nothing drawn onto it. */
  lemma ShelfImageShape(assets: map<string, Size>, shelf: ShelfConfig)
    ensures ShelfImage(assets, shelf).Ok? <==>
      ShelfKey(shelf) in assets && (shelf.FrontShelf? ==> ShelfOps(assets, shelf.shelfType, shelf.datapacks, shelf.dpLabel, shelf.fmLabel).Ok?)
    ensures ShelfImage(assets, shelf).Ok? ==>
      var s := ShelfImage(assets, shelf).value;
      && s.base == ShelfKey(shelf) && s.size == assets[ShelfKey(shelf)]
      && (shelf.BackShelf? ==> s.ops == [])
      && (shelf.FrontShelf? ==> s.ops == ShelfOps(assets, shelf.shelfType, shelf.datapacks, shelf.dpLabel, shelf.fmLabel).value)
    ensures ShelfKey(shelf) !in assets ==> ShelfImage(assets, shelf) == Err(MissingAsset(ShelfKey(shelf)))
  {
  }

  /** A SAS shelf with labels on labels every datapack that has modules, on the right from slot 10 on. */
  lemma SasShelfLabels(assets: map<string, Size>, shelfType: string, dps: seq<Datapack>, fmLabel: bool)
    requires shelfType != "nvme" && ShelfOps(assets, shelfType, dps, true, fmLabel).Ok?
    requires forall k :: 0 <= k < |dps| ==> dps[k].modules > 0
    ensures Labels(ShelfOps(assets, shelfType, dps, true, fmLabel).value)
            == seq(|dps|, k requires 0 <= k < |dps| => DpLabel(dps[k].size + "TB", 90, 0, Start(dps, k) > 9))
  {
    var fms := FmOps(SasShelf, Table(SasShelf), dps, 0, fmLabel, true);
    assert fms + [] == fms;
    FmOpsLabels(SasShelf, Table(SasShelf), dps, 0, fmLabel);
  }

  /** The front tasks of a shelf: `add_nvme_fms` or `add_sas_fms`. */
  method ShelfFrontTasks(cache: Registry, shelfType: string, dps: seq<Datapack>, dpLabel: bool, fmLabel: bool)
    returns (r: Result<seq<Op>>)
    requires cache.Valid()
    modifies cache, cache.Repr
    ensures Advances(cache)
    ensures r == ShelfOps(cache.assets, shelfType, dps, dpLabel, fmLabel)
  {
    var bay := ShelfBay(shelfType);
    var fms :- AddFms(cache, bay, dps, fmLabel, dpLabel);
    var labels: seq<Op> := [];
    if bay.NvmeShelf? && dpLabel {
      labels := AddNvmeLabels(dps);
    }
    return Ok(fms + labels);
  }

  /** `FAShelf.get_image()`: the base picture, then on the front the datapack task. */
  method ShelfGetImage(cache: Registry, shelf: ShelfConfig) returns (r: Result<Section>)
    requires cache.Valid()
    modifies cache, cache.Repr
    ensures Advances(cache)
    ensures r == ShelfImage(cache.assets, shelf)
  {
    var key := ShelfKey(shelf);
    var base :- Acquire(cache, key);
    if shelf.BackShelf? {
      return Ok(Section(key, base, []));
    }
    var ops :- ShelfFrontTasks(cache, shelf.shelfType, shelf.datapacks, shelf.dpLabel, shelf.fmLabel);
    return Ok(Section(key, base, ops));
  }

  // ---- FAChassis ---------------------------------------------------------------------------

  const NvramKey: string := "png/pure_fa_x_nvram.png"

  function BezelKey(generation: string): string { "png/pure_fa_" + generation + "_bezel.png" }

  function ChassisKey(generation: string, face: string): string { "png/pure_fa_" + generation + "_" + face + ".png" }

  /** The two NVRAM positions of a generation. */
  function NvramLocs(generation: string): (Point, Point)
  {
    if generation == "x" then (Point(1263, 28), Point(1813, 28)) else (Point(1255, 20), Point(1805, 20))
  }

  /** `add_nvram`: models below 70 have none; the others get the NVRAM picture twice. */
  function NvramResult(assets: map<string, Size>, generation: string, modelNum: int): Result<seq<Op>>
  {
    if modelNum < 70 then Ok([])
    else
      var img :- Fetch(assets, NvramKey);
      Ok([Paste(Asset(NvramKey), NvramLocs(generation).0), Paste(Asset(NvramKey), NvramLocs(generation).1)])
  }

  /** `"{}{}r{}".format(generation.upper(), model_num, release)` */
  function ModelText(config: Config): string
  {
    Upper(config.generation) + IntToString(config.modelNum) + "r" + IntToString(config.release)
  }

  function ModelTextLoc(generation: string): Point
  {
    if generation == "x" then Point(2759, 83) else Point(2745, 120)
  }

  /** `if pci[x]`: an empty slot and an empty card name are both skipped. */
  predicate Truthy(slot: Option<string>) { slot.Some? && slot.value != "" }

  /** Full-height pictures for slots 0 and 1, half-height for slots 2 and 3. */
  function CardKey(card: string, slot: nat): string
  {
    "png/pure_fa_" + card + "_" + (if slot < 2 then "fh" else "hh") + ".png"
  }

  /** The controller-1 position of each PCI slot; generations other than x and m have no table. */
  function PciLayout(generation: string): Option<seq<Point>>
  {
    if generation == "x" then Some([Point(1198, 87), Point(1198, 203), Point(2069, 87), Point(2069, 203)])
    else if generation == "m" then Some([Point(1317, 87), Point(1317, 201), Point(2182, 87), Point(2182, 201)])
    else None
  }

  /** The distance from controller 1 down to controller 0. */
  const CtOffset: int := 378

  /** `add_card(slot, card)`: the card picture at its slot on both controllers. */
  function CardResult(assets: map<string, Size>, generation: string, slot: nat, card: string): Result<seq<Op>>
    requires slot < 4
  {
    var key := CardKey(card, slot);
    var img :- Fetch(assets, key);
    match PciLayout(generation)
    case None => Err(NoPciLayout(generation))
    case Some(locs) =>
      var at := locs[slot];
      Ok([Paste(Asset(key), at), Paste(Asset(key), Point(at.x, at.y + CtOffset))])
  }

  /** `add_cards`, from slot `x` on. */
  function CardsResult(assets: map<string, Size>, generation: string, pci: PciSlots, x: nat): Result<seq<Op>>
    requires x <= 4
    decreases 4 - x
  {
    if x == 4 then Ok([])
    else if !Truthy(pci[x]) then CardsResult(assets, generation, pci, x + 1)
    else
      var card :- CardResult(assets, generation, x, pci[x].value);
      Prepend(card, CardsResult(assets, generation, pci, x + 1))
  }

  /** The number of configured cards from slot `x` on. */
  function CardCount(pci: PciSlots, x: nat): nat
    requires x <= 4
    decreases 4 - x
  {
    if x == 4 then 0 else (if Truthy(pci[x]) then 1 else 0) + CardCount(pci, x + 1)
  }

  /** The cards succeed exactly when every configured card has its picture and the generation has a slot table. */
  lemma {:induction false} CardsResultOk(assets: map<string, Size>, generation: string, pci: PciSlots, x: nat)
    requires x <= 4
    ensures CardsResult(assets, generation, pci, x).Ok? <==>
      forall s :: x <= s < 4 && Truthy(pci[s]) ==> CardKey(pci[s].value, s) in assets && PciLayout(generation).Some?
    decreases 4 - x
  {
    if x < 4 {
      CardsResultOk(assets, generation, pci, x + 1);
    }
  }

  /** Two asset pastes per configured card and nothing else. */
  lemma {:induction false} CardsResultSize(assets: map<string, Size>, generation: string, pci: PciSlots, x: nat)
    requires x <= 4 && CardsResult(assets, generation, pci, x).Ok?
    ensures var ops := CardsResult(assets, generation, pci, x).value;
      && |ops| == 2 * CardCount(pci, x)
      && (forall k :: 0 <= k < |ops| ==> ops[k].Paste? && ops[k].overlay.Asset?)
    decreases 4 - x
  {
    if x < 4 {
      CardsResultSize(assets, generation, pci, x + 1);
      if Truthy(pci[x]) {
        var card := CardResult(assets, generation, x, pci[x].value).value;
        var rest := CardsResult(assets, generation, pci, x + 1).value;
        var ops := card + rest;
        assert forall k :: 2 <= k < |ops| ==> ops[k] == rest[k - 2];
      }
    }
  }

  /** Every configured card is pasted at its slot and 378 px below it. */
  lemma {:induction false} CardsResultPlaces(assets: map<string, Size>, generation: string, pci: PciSlots, x: nat)
    requires x <= 4 && CardsResult(assets, generation, pci, x).Ok?
    ensures forall s :: x <= s < 4 && Truthy(pci[s]) ==>
      PciLayout(generation).Some? &&
      var at := PciLayout(generation).value[s];
      var ops := CardsResult(assets, generation, pci, x).value;
      && Paste(Asset(CardKey(pci[s].value, s)), at) in ops
      && Paste(Asset(CardKey(pci[s].value, s)), Point(at.x, at.y + CtOffset)) in ops
    decreases 4 - x
  {
    if x < 4 {
      CardsResultPlaces(assets, generation, pci, x + 1);
    }
  }

  function MezzKey(mezz: string): string { "png/pure_fa_x_" + mezz + ".png" }

  /** `add_mezz`: only FA//X has a mezzanine picture, pasted on both controllers. */
  function MezzResult(assets: map<string, Size>, generation: string, mezz: string): Result<seq<Op>>
  {
    if generation != "x" then Ok([])
    else
      var img :- Fetch(assets, MezzKey(mezz));
      Ok([Paste(Asset(MezzKey(mezz)), Point(585, 45)), Paste(Asset(MezzKey(mezz)), Point(585, 425))])
  }

  /** The front tasks of a chassis: the datapack loop, the NVRAM and the model text. */
  function FrontOps(assets: map<string, Size>, config: Config): Result<seq<Op>>
    requires config.face.Front?
  {
    var g := config.generation;
    var fms :- FmResult(assets, ChassisBay(g), config.chassisDatapacks, config.face.fmLabel, config.face.dpLabel);
    var nvram :- NvramResult(assets, g, config.modelNum);
    Ok(fms + nvram + [Text(ModelText(config), ModelTextLoc(g))])
  }

  /** The back tasks of a chassis: the PCI cards and the mezzanine. */
  function BackOps(assets: map<string, Size>, config: Config): Result<seq<Op>>
    requires config.face.Back?
  {
    var cards :- CardsResult(assets, config.generation, config.face.pci, 0);
    var mezz :- MezzResult(assets, config.generation, config.face.mezz);
    Ok(cards + mezz)
  }

  /** The section `FAChassis(config).get_image()` returns, or the exception it raises. */
  function ChassisImage(assets: map<string, Size>, config: Config): Result<Section>
  {
    var g := config.generation;
    if Bezel(config.face) then
      var img :- Fetch(assets, BezelKey(g));
      Ok(Section(BezelKey(g), img, []))
    else
      var key := ChassisKey(g, FaceName(config.face));
      var base :- Fetch(assets, key);
      var ops :- if config.face.Front? then FrontOps(assets, config) else BackOps(assets, config);
      Ok(Section(key, base, ops))
  }

  /**
   * A bezel hides everything: the section is the bezel picture alone.
   * Otherwise it is the face's base picture with the face's tasks drawn on it.
   */
  lemma ChassisImageShape(assets: map<string, Size>, config: Config)
    ensures Bezel(config.face) ==>
      ChassisImage(assets, config) ==
        if BezelKey(config.generation) in assets
        then Ok(Section(BezelKey(config.generation), assets[BezelKey(config.generation)], []))
        else Err(MissingAsset(BezelKey(config.generation)))
    ensures !Bezel(config.face) && ChassisImage(assets, config).Ok? ==>
      var s := ChassisImage(assets, config).value;
      && s.base == ChassisKey(config.generation, FaceName(config.face))
      && s.size == assets[s.base]
      && (config.face.Front? ==> FrontOps(assets, config) == Ok(s.ops))
      && (config.face.Back? ==> BackOps(assets, config) == Ok(s.ops))
  {
  }

  /** The NVRAM pastes show no module and no label: none below model 70, two at the generation's positions from 70 on. */
  lemma NvramPlain(assets: map<string, Size>, generation: string, modelNum: int)
    requires NvramResult(assets, generation, modelNum).Ok?
    ensures var v := NvramResult(assets, generation, modelNum).value;
      && Spots(v) == [] && Labels(v) == []
      && (modelNum < 70 ==> v == [])
      && (modelNum >= 70 ==> v == [Paste(Asset(NvramKey), NvramLocs(generation).0), Paste(Asset(NvramKey), NvramLocs(generation).1)])
  {
    if modelNum >= 70 {
      var a := Paste(Asset(NvramKey), NvramLocs(generation).0);
      var b := Paste(Asset(NvramKey), NvramLocs(generation).1);
      SpotsOne(a);
      SpotsOne(b);
      JoinPlain([a] + [b], [a], [b]);
      assert [a, b] == [a] + [b];
    }
  }

  /** No asset paste is found in the datapack drawing followed by the model text. */
  lemma NoAssetBeside(ops: seq<Op>, fms: seq<Op>, rest: seq<Op>, x: Op)
    requires ops == fms + rest && OnlyFms(fms)
    requires forall k :: 0 <= k < |rest| ==> rest[k].Text?
    requires x.Paste? && x.overlay.Asset?
    ensures x !in ops
  {
    forall k | 0 <= k < |ops|
      ensures ops[k] != x
    {
      if k < |fms| {
        assert ops[k] == fms[k];
      } else {
        assert ops[k] == rest[k - |fms|];
      }
    }
  }

  /** The front of a chassis in three parts: the datapack drawing, the NVRAM pastes and the model text. */
  lemma FrontParts(assets: map<string, Size>, config: Config)
    requires config.face.Front? && FrontOps(assets, config).Ok?
    ensures var g := config.generation;
      FrontOps(assets, config).value
      == FmOps(ChassisBay(g), Table(ChassisBay(g)), config.chassisDatapacks, 0, config.face.fmLabel, config.face.dpLabel)
         + NvramResult(assets, g, config.modelNum).value + [Text(ModelText(config), ModelTextLoc(g))]
  {
  }

  /** The modules of a chassis fill `Total` slots of its generation's table, at most 20. */
  lemma ChassisFrontSpots(assets: map<string, Size>, config: Config)
    requires config.face.Front? && FrontOps(assets, config).Ok?
    ensures var g := config.generation;
      Spots(FrontOps(assets, config).value)
      == SlotRange(ChassisBay(g), Table(ChassisBay(g)), 0, Total(config.chassisDatapacks), config.face.fmLabel)
  {
    var g := config.generation;
    var bay, dps := ChassisBay(g), config.chassisDatapacks;
    var locs := Table(bay);
    var fms := FmOps(bay, locs, dps, 0, config.face.fmLabel, config.face.dpLabel);
    var nvram := NvramResult(assets, g, config.modelNum).value;
    var text := Text(ModelText(config), ModelTextLoc(g));
    FrontParts(assets, config);
    SpotsOne(text);
    NvramPlain(assets, g, config.modelNum);
    SpotsPlain(fms + nvram + [text], fms + nvram, [text]);
    SpotsPlain(fms + nvram, fms, nvram);
    FmOpsSpots(bay, locs, dps, 0, config.face.fmLabel, config.face.dpLabel);
  }

  /** The NVRAM picture appears on the front of a chassis exactly on models 70 and up. */
  lemma ChassisFrontNvram(assets: map<string, Size>, config: Config)
    requires config.face.Front? && FrontOps(assets, config).Ok?
    ensures Paste(Asset(NvramKey), NvramLocs(config.generation).0) in FrontOps(assets, config).value
            <==> config.modelNum >= 70
  {
    var g := config.generation;
    var bay, dps := ChassisBay(g), config.chassisDatapacks;
    var locs := Table(bay);
    var fms := FmOps(bay, locs, dps, 0, config.face.fmLabel, config.face.dpLabel);
    var nvram := NvramResult(assets, g, config.modelNum).value;
    var text := Text(ModelText(config), ModelTextLoc(g));
    var ops := fms + nvram + [text];
    FrontParts(assets, config);
    NvramPlain(assets, g, config.modelNum);
    if config.modelNum >= 70 {
      assert ops[|fms|] == Paste(Asset(NvramKey), NvramLocs(g).0);
    } else {
      FmOpsOnlyFms(bay, locs, dps, 0, config.face.fmLabel, config.face.dpLabel);
      NoAssetBeside(ops, fms, [text], Paste(Asset(NvramKey), NvramLocs(g).0));
    }
  }

  /** The model text is the last thing drawn on the front of a chassis. */
  lemma ChassisFrontText(assets: map<string, Size>, config: Config)
    requires config.face.Front? && FrontOps(assets, config).Ok?
    ensures var ops := FrontOps(assets, config).value;
      ops[|ops| - 1] == Text(ModelText(config), ModelTextLoc(config.generation))
  {
    FrontParts(assets, config);
  }

  /** Datapack labels in a chassis: one per datapack, on the right exactly when it starts past slot 9. */
  lemma ChassisLabels(assets: map<string, Size>, config: Config)
    requires config.face.Front? && config.face.dpLabel && FrontOps(assets, config).Ok?
    ensures var dps := config.chassisDatapacks;
      Labels(FrontOps(assets, config).value)
      == seq(|dps|, k requires 0 <= k < |dps| => DpLabel(dps[k].size + "TB", 130, 244, Start(dps, k) > 9))
  {
    var g := config.generation;
    var dps := config.chassisDatapacks;
    var fms := FmOps(ChassisBay(g), Table(ChassisBay(g)), dps, 0, config.face.fmLabel, true);
    var nvram := NvramResult(assets, g, config.modelNum).value;
    var text := Text(ModelText(config), ModelTextLoc(g));
    assert FrontOps(assets, config).value == fms + nvram + [text];
    SpotsOne(text);
    JoinPlain(fms + nvram + [text], fms + nvram, [text]);
    NvramPlain(assets, g, config.modelNum);
    JoinPlain(fms + nvram, fms, nvram);
    FmOpsLabels(ChassisBay(g), Table(ChassisBay(g)), dps, 0, config.face.fmLabel);
    ClosedChassisLabels(g, dps);
  }

  lemma ClosedChassisLabels(generation: string, dps: seq<Datapack>)
    ensures ClosedLabels(ChassisBay(generation), dps, 0)
            == seq(|dps|, k requires 0 <= k < |dps| => DpLabel(dps[k].size + "TB", 130, 244, Start(dps, k) > 9))
  {
  }

  /** The back of a chassis shows only asset pictures: two per configured card, then on FA//X the mezzanine twice. */
  lemma ChassisBack(assets: map<string, Size>, config: Config)
    requires config.face.Back? && BackOps(assets, config).Ok?
    ensures var ops := BackOps(assets, config).value;
            var g := config.generation;
      && (forall k :: 0 <= k < |ops| ==> ops[k].Paste? && ops[k].overlay.Asset?)
      && |ops| == 2 * CardCount(config.face.pci, 0) + (if g == "x" then 2 else 0)
      && (g == "x" ==>
            && Paste(Asset(MezzKey(config.face.mezz)), Point(585, 45)) in ops
            && Paste(Asset(MezzKey(config.face.mezz)), Point(585, 425)) in ops)
  {
    var g := config.generation;
    CardsResultSize(assets, g, config.face.pci, 0);
    var cards := CardsResult(assets, g, config.face.pci, 0).value;
    var mezz := MezzResult(assets, g, config.face.mezz).value;
    var ops := cards + mezz;
    assert BackOps(assets, config).value == ops;
    assert forall k :: |cards| <= k < |ops| ==> ops[k] == mezz[k - |cards|];
    if g == "x" {
      assert ops[|cards|] == Paste(Asset(MezzKey(config.face.mezz)), Point(585, 45));
      assert ops[|cards| + 1] == Paste(Asset(MezzKey(config.face.mezz)), Point(585, 425));
    }
  }

  // ---- FAChassis through the registry ---------------------------------------------------------

  method AddNvram(cache: Registry, generation: string, modelNum: int) returns (r: Result<seq<Op>>)
    requires cache.Valid()
    modifies cache, cache.Repr
    ensures Advances(cache)
    ensures r == NvramResult(cache.assets, generation, modelNum)
  {
    var locs := NvramLocs(generation);
    if modelNum < 70 {
      return Ok([]);
    }
    var img :- Acquire(cache, NvramKey);
    return Ok([Paste(Asset(NvramKey), locs.0), Paste(Asset(NvramKey), locs.1)]);
  }

  method AddCard(cache: Registry, generation: string, slot: nat, card: string) returns (r: Result<seq<Op>>)
    requires cache.Valid() && slot < 4
    modifies cache, cache.Repr
    ensures Advances(cache)
    ensures r == CardResult(cache.assets, generation, slot, card)
  {
    var key := CardKey(card, slot);
    var img :- Acquire(cache, key);
    var layout := PciLayout(generation);
    if layout.None? {
      return Err(NoPciLayout(generation));
    }
    var at := layout.value[slot];
    return Ok([Paste(Asset(key), at), Paste(Asset(key), Point(at.x, at.y + CtOffset))]);
  }

  /** `add_cards`: every truthy slot, in slot order. */
  method AddCards(cache: Registry, generation: string, pci: PciSlots) returns (r: Result<seq<Op>>)
    requires cache.Valid()
    modifies cache, cache.Repr
    ensures Advances(cache)
    ensures r == CardsResult(cache.assets, generation, pci, 0)
  {
    var ops: seq<Op> := [];
    PrependNil(CardsResult(cache.assets, generation, pci, 0));
    for x := 0 to 4
      invariant Advances(cache)
      invariant CardsResult(cache.assets, generation, pci, 0) == Prepend(ops, CardsResult(cache.assets, generation, pci, x))
    {
      if pci[x].Some? && pci[x].value != "" {
        var card :- AddCard(cache, generation, x, pci[x].value);
        PrependTwice(ops, card, CardsResult(cache.assets, generation, pci, x + 1));
        ops := ops + card;
      }
    }
    assert ops + [] == ops;
    return Ok(ops);
  }

  method AddMezz(cache: Registry, generation: string, mezz: string) returns (r: Result<seq<Op>>)
    requires cache.Valid()
    modifies cache, cache.Repr
    ensures Advances(cache)
    ensures r == MezzResult(cache.assets, generation, mezz)
  {
    if generation != "x" {
      return Ok([]);
    }
    var key := MezzKey(mezz);
    var img :- Acquire(cache, key);
    return Ok([Paste(Asset(key), Point(585, 45)), Paste(Asset(key), Point(585, 425))]);
  }

  /** The front tasks in task order: `add_fms`, `add_nvram`, `add_model_text`. */
  method FrontTasks(cache: Registry, config: Config) returns (r: Result<seq<Op>>)
    requires cache.Valid() && config.face.Front?
    modifies cache, cache.Repr
    ensures Advances(cache)
    ensures r == FrontOps(cache.assets, config)
  {
    var g := config.generation;
    var fms :- AddFms(cache, ChassisBay(g), config.chassisDatapacks, config.face.fmLabel, config.face.dpLabel);
    var nvram :- AddNvram(cache, g, config.modelNum);
    return Ok(fms + nvram + [Text(ModelText(config), ModelTextLoc(g))]);
  }

  /** The back tasks in task order: `add_cards`, `add_mezz`. */
  method BackTasks(cache: Registry, config: Config) returns (r: Result<seq<Op>>)
    requires cache.Valid() && config.face.Back?
    modifies cache, cache.Repr
    ensures Advances(cache)
    ensures r == BackOps(cache.assets, config)
  {
    var cards :- AddCards(cache, config.generation, config.face.pci);
    var mezz :- AddMezz(cache, config.generation, config.face.mezz);
    return Ok(cards + mezz);
  }

  /** `FAChassis.get_image()`: the bezel alone, or the base picture and the tasks of its face. */
  method ChassisGetImage(cache: Registry, config: Config) returns (r: Result<Section>)
    requires cache.Valid()
    modifies cache, cache.Repr
    ensures Advances(cache)
    ensures r == ChassisImage(cache.assets, config)
  {
    var g := config.generation;
    if config.face.Front? && config.face.bezel {
      var img :- Acquire(cache, BezelKey(g));
      return Ok(Section(BezelKey(g), img, []));
    }
    var key := ChassisKey(g, FaceName(config.face));
    var base :- Acquire(cache, key);
    var ops;
    if config.face.Front? {
      ops :- FrontTasks(cache, config);
    } else {
      ops :- BackTasks(cache, config);
    }
    return Ok(Section(key, base, ops));
  }
}
