# purerackdiagram layout core, in Dafny

This project models the deterministic core of the rack-diagram builder for
Pure Storage FlashArray (FA) and FlashBlade (FB) systems. A request's
query parameters become a layout configuration. The configuration becomes
one section per chassis or shelf, and the sections are stacked into one
canvas. Every step is a Dafny function or method with a proved contract:

- **Asset registry** (`assets.dfy`, module `AssetCache`). This is `RackImage`
  and the global `cache`. It is a class `Registry` holding the map from
  asset key to its primary `RackImage`, plus a log of every decode. A class
  `RackImage` holds the `img`, `primary` and `primaryObj` fields. The first
  `RackImage` for a key registers itself. Later ones are secondaries that
  delegate to it. The primary decodes only while `img` is unset, so each key
  is decoded at most once (`Registry.Valid` keeps the decode log free of
  repeats). A decoded image is abstracted to its `Size`. The asset files
  are the registry's `assets` map.
- **Request parsing** (`faconfig.dfy`, `diagram.dfy`, and the configuration
  part of `flashblade.dfy`). `FADiagram.__init__`, `_init_pci_cards`,
  `_init_datapacks`, `FBDiagram.__init__` and `init_diagram` each have a
  specification function returning a `Result`. Each also has a method that
  builds the configuration step by step as the source does, proved equal to
  that function. Where the source loops, so does the method: the PCI slot
  array is updated in place and the datapack and shelf lists are appended to. The string operations used
  (`lower`, `split`, slicing, `int()`, `str()`) are in `text.dfy`.
- **Layout geometry** (`geometry.dfy`, `sections.dfy`). The module-slot
  tables are loops filling a 28- or 24-entry array, proved equal to closed
  forms. Each section is a *paste plan*: a base asset, its size, and the
  ordered `Op`s drawn on it (pastes, text, datapack capacity labels). The
  datapack loops are proved to fill slots `[cur, min(cap, cur + n))` and to
  label each datapack on the side its start slot selects.
- **Stacking** (`stacking.dfy`). `combine_images_vertically` is a loop
  carrying `y_offset`. It is proved equal to a closed-form placement:
  width is the maximum, height is the sum, each image is centred and sits
  below the ones before it. The `"up"` reversal is an in-place array
  reversal.
- **Gathering** (`diagram.dfy`, `flashblade.dfy`). `FADiagram.get_image`
  and `FBDiagram.get_image` run their tasks one after the other through the
  registry. The tasks are the chassis, then each shelf; for FB, one task
  per chassis copy. Their results are oriented and stacked.

A failed decode is not remembered. `load_img` raises before setting `img`,
so a later request for the same key decodes again (`RackImage.GetImage`).
A FlashBlade request for zero or fewer chassis is refused the way
`combine_images_vertically` refuses an empty list (`NoImages`).

## Model

| member | source | states |
|---|---|---|
| AssetCache.Registry.constructor | PureRackdiagram.py:28 | The process starts with an empty `cache` and no decodes. |
| AssetCache.RackImage.constructor | PureRackdiagram.py:53-63 | The first object for a key registers itself as primary. A later one is non-primary, points at the registered object and leaves the registry unchanged. The registry stays valid. |
| AssetCache.RackImage.GetImage | PureRackdiagram.py:66-79 | A secondary delegates to its primary. The result is always the source's image for the key. The decode log grows by the key only when it was never decoded before and the source holds it: at most one decode per key. |
| AssetCache.Acquire | PureRackdiagram.py:52-79 | `RackImage(key).get_image()` returns the source's image whatever the registry holds, registers the key, and decodes it at most once. |
| Geometry.XChassisStep | PureRackdiagram.py:375-392 | Each slot not seeded is its predecessor moved 105 px right (slots 1–19), or 550 px right and 105 px up (even slots ≥ 20), or 105 px down (odd slots ≥ 20). |
| Geometry.GetChassisFmLoc | PureRackdiagram.py:367-399 | The in-place loops fill all 28 slots with the closed-form chassis positions of the generation. |
| Geometry.ChassisFmRows | PureRackdiagram.py:367-399 | Slots 0–19 are on y = 250 in runs of 105 px starting at x = 165, 714, 1265 and 1817. Slots 20–27 alternate between y = 27 and y = 132 at x = 164 + 550·((i−20) div 2). A generation other than `x` shifts every slot by (−9, −7). |
| Geometry.GetSasFmLoc | PureRackdiagram.py:403-414 | 24 slots, all on y = 1, at x = 138 + 105·i for i < 12 and 1450 + 105·(i−12) for i ≥ 12. |
| Geometry.DpLabelBoxBounds | PureRackdiagram.py:338-356 | The label box starts 60 px below `y_offset` and ends 60 px above the bottom. On the left it spans `x_offset+75` to `w//2−75`; on the right it starts at `w//2+75`. Its centre is the floor of the corners' midpoint. |
| Geometry.DpBoxesMirror | PureRackdiagram.py:342-348 | A right label is the left label's box moved across the midline: same width and rows, starting 150 px after the left box ends. |
| Stacking.Reversed | PureRackdiagram.py:631 | Reversing keeps the length and puts element `i` at position `n−1−i`. |
| Stacking.MaxWidthIsMax | PureRackdiagram.py:637-640 | The canvas width bounds every image's width and equals the width of one of them. |
| Stacking.ReversedTotals | PureRackdiagram.py:630-640 | Reversing the images changes neither the canvas width nor its height. |
| Stacking.StackCentred | PureRackdiagram.py:644-649 | Each image is pasted once, in list order, at x = (W − w) div 2, inside the canvas. |
| Stacking.StackRows | PureRackdiagram.py:644-651 | The first image is at y = 0. Each next one is directly below the previous one. The last one ends at the canvas height, the sum of the heights. |
| Stacking.StackReversed | PureRackdiagram.py:630-640 | A bottom-up stack has the same canvas size as the top-down one. |
| Stacking.OrientedRows | PureRackdiagram.py:630-633 | With direction `"up"` the rows are the images in reverse order; otherwise in input order. The canvas size is the same either way. |
| Stacking.StackThreeUp | PureRackdiagram.py:630-651 | Sections 100, 200 and 150 px tall stacked `"up"` give a 450 px canvas: the third section at y = 0, the second at 150, the first at 350. |
| Stacking.CombineImagesVertically | PureRackdiagram.py:636-651 | The `y_offset` loop produces exactly the closed-form stack, and an empty list is refused. |
| Stacking.ReverseInPlace | PureRackdiagram.py:631 | `list.reverse()` leaves the array holding the reverse of its old contents. |
| Stacking.Orient | PureRackdiagram.py:630-631 | The gathered list is reversed exactly when direction is `"up"`. |
| Text.LowerIdempotent | PureRackdiagram.py:678-680 | Lower-casing twice equals lower-casing once, so `init_diagram`'s `.lower()` followed by `FADiagram`'s is harmless. |
| Text.Slice | PureRackdiagram.py:581-586 | `s[i:j]` is the substring when the bounds are in range, and empty when `i` is past the end. |
| Text.JoinSplit | PureRackdiagram.py:517 | Joining the parts of `split(sep)` with `sep` gives back the original string. |
| Text.SplitJoin | PureRackdiagram.py:517 | Splitting a join of separator-free parts gives back those parts. |
| Text.SplitPiecesFree | PureRackdiagram.py:530 | No part of a split contains the separator. |
| Text.ParseIntToString | PureRackdiagram.py:444-449 | `int(str(n)) == n` for every integer. |
| FAConfig.SlotOrder | PureRackdiagram.py:457-459 | A card only ever tries PCI slots 0–3, never the same slot twice, and slots 0 and 1 are always among them. |
| FAConfig.FirstFree | PureRackdiagram.py:461-464 | Returns the first slot of the order that is empty, every earlier one being occupied; or none when all are occupied. |
| FAConfig.PlaceCard | PureRackdiagram.py:457-464 | An occupied slot is never overwritten. The card goes into the first empty slot of its order, or is dropped when every slot in the order is full. |
| FAConfig.PlaceCardsKeepsOccupied | PureRackdiagram.py:454-464 | A slot holding a card keeps it whatever add-on cards follow. |
| FAConfig.PlaceCardsFills | PureRackdiagram.py:454-464 | n add-on cards fill at most n empty slots, and never make a slot empty. |
| FAConfig.PciConfigSlot | PureRackdiagram.py:443-472 | A `pci.N` parameter decides slot N. Without it, a slot the lookup-table entry fills keeps that card, and with no add-on cards every slot is the table's. |
| FAConfig.PlaceCardIn | PureRackdiagram.py:461-464 | The inner loop writes the card into the array exactly as `PlaceCard` says. |
| FAConfig.PlaceCardsIn | PureRackdiagram.py:455-464 | The loop over the comma-separated add-on cards places them one after the other. |
| FAConfig.OverrideIn | PureRackdiagram.py:469-472 | After the `pci.N` loop, each slot holds its parameter if one is given, else its old value. |
| FAConfig.InitPciCards | PureRackdiagram.py:418-472 | `_init_pci_cards` starts from the `fa-{gen}{num}r{rel}-{proto}` table entry (all empty without one), places the add-on cards, then applies the overrides. |
| FAConfig.LookupPacksOk | PureRackdiagram.py:530-537 | A part parses exactly when each `/` entry is a table key or `0`. |
| FAConfig.LookupPacksFirstUnknown | PureRackdiagram.py:530-555 | A part that fails names its first unknown entry, every earlier entry being known or `0`. |
| FAConfig.LookupPacksSnoc | PureRackdiagram.py:547-555 | One more entry adds its table row, adds nothing for `0`, or raises for an unknown size. |
| FAConfig.LookupPacksSkipsZero | PureRackdiagram.py:533-534 | A `0` entry anywhere is ignored. |
| FAConfig.ShelfTypeOfLast | PureRackdiagram.py:544-550 | The shelf type follows the last recognised datapack; a trailing `0` keeps the type the earlier entries gave. |
| FAConfig.ShelvesOfLength | PureRackdiagram.py:542-569 | One shelf per part. Front-face shelves carry datapacks and labels; back-face shelves carry only their type. |
| FAConfig.DatapacksShape | PureRackdiagram.py:507-571 | No `datapacks` parameter gives no datapacks and no shelves. Otherwise there is one shelf per `-` part after the first. A bezel leaves the chassis without datapacks. |
| FAConfig.BezelSkipsChassis | PureRackdiagram.py:528-539 | With a bezel the chassis part is never read: any error is a shelf error. |
| FAConfig.ShelvesOfErrors | PureRackdiagram.py:547-555 | Shelf parts only ever raise the unknown-shelf-datapack error. |
| FAConfig.ReadChassisPacks | PureRackdiagram.py:530-539 | The chassis loop yields the datapacks of the chassis table, or its first unknown entry. |
| FAConfig.ReadShelf | PureRackdiagram.py:543-569 | The shelf loop yields the shelf of the part, with its type tracking the last datapack read. |
| FAConfig.ReadShelves | PureRackdiagram.py:542-569 | The loop over the shelf parts gives one shelf per part, in order, or the first error. |
| FAConfig.InitDatapacks | PureRackdiagram.py:475-571 | `_init_datapacks` yields exactly the chassis datapacks and shelves of the specification function, or its error. |
| FAConfig.ToIntOneChar | PureRackdiagram.py:586 | `int()` of one character succeeds exactly on a digit, with that digit's value. |
| FAConfig.ConfigFacts | PureRackdiagram.py:580-612 | The model string is lower-cased, and the face is back exactly for `face=back` (anything else is front). The back face has no bezel and its mezz defaults to `emezz` iff model_num > 20, else `smezz`. On the front, `False`/`false`/`no`/`0` mean no bezel, and the label flags are the presence of `fm_label`/`dp_label`. The release is the digit at index 7 when `r` occurs and the length is > 7, else 1. |
| FAConfig.ConfigNeedsModelNumber | PureRackdiagram.py:582 | A model string without an integer at `[4:6]` raises that `int()` error. |
| FAConfig.Init | PureRackdiagram.py:575-616 | `FADiagram.__init__`, field by field, gives exactly the configuration function's result or error. |
| Sections.SlotRangeClosed | PureRackdiagram.py:130-135 | A datapack of n modules from `cur` fills slots `cur` to `min(cap, cur + n)`, in order, at the table's positions. On an NVMe shelf, slots ≥ 20 get the rotated module. |
| Sections.SlotRangeConcat | PureRackdiagram.py:294-297 | Filling m slots and then t more is filling m + t: `cur` advances by n even past the cap. |
| Sections.SpotsOfPastes | PureRackdiagram.py:168-169 | The paste loop of one datapack puts modules exactly in its slot range. |
| Sections.PackOpsSpots | PureRackdiagram.py:148-172 | One datapack's drawing places modules exactly in its slot range; its label adds no module. |
| Sections.FmOpsSpots | PureRackdiagram.py:113-135 | The whole datapack loop fills slots consecutively from 0, one per module, up to the section's cap (28 NVMe shelf, 24 SAS shelf, 20 chassis). Later modules are dropped. |
| Sections.FmOpsLabels | PureRackdiagram.py:174-180 | On a SAS shelf or chassis with labels on, datapack k gets exactly one label, with its size, on the right exactly when it starts past slot 9. |
| Sections.FmOpsNoLabels | PureRackdiagram.py:137-145 | Without `dp_label` the datapack loop draws no label, and the NVMe loop never draws one. |
| Sections.FmOpsOnlyFms | PureRackdiagram.py:278-305 | The datapack loop pastes only module pictures and draws only capacity labels. |
| Sections.SlotTable | PureRackdiagram.py:127 | The section's `fm_loc = ...` call returns the slot table of its kind. |
| Sections.PasteModules | PureRackdiagram.py:130-134 | The `range(cur, min(cap, cur + n))` loop produces the datapack's pastes. |
| Sections.AddPack | PureRackdiagram.py:158-180 | One loop turn fetches the module picture for a placed datapack, pastes it, and labels it. It fails only when that picture is missing. |
| Sections.AddFmsTurn | PureRackdiagram.py:280-305 | Turn i appends datapack i's drawing to the part already drawn, or fails with the missing module picture. |
| Sections.AddFms | PureRackdiagram.py:278-305 | `add_nvme_fms`/`add_sas_fms`/`add_fms` give exactly the datapack drawing, or the missing-module error when some datapack is placed. |
| Sections.AddNvmeLabels | PureRackdiagram.py:137-145 | The NVMe label loop draws one label per datapack: the first on the left, every later one on the right. |
| Sections.ShelfOpsShape | PureRackdiagram.py:113-145 | A shelf front puts modules in its first `min(cap, total modules)` slots. It has no labels without `dp_label`, and the NVMe labels with it. |
| Sections.ShelfImageShape | PureRackdiagram.py:94-111 | A shelf section is the `png/pure_fa_{type}_shelf_{face}.png` picture. Nothing is drawn on the back. The front carries the datapack drawing. A missing base picture raises that error. |
| Sections.SasShelfLabels | PureRackdiagram.py:148-180 | A SAS shelf labels every datapack that has modules, at offsets (90, 0), on the right from slot 10 on. |
| Sections.ShelfFrontTasks | PureRackdiagram.py:98-102 | The shelf front runs `add_nvme_fms` for an NVMe shelf and `add_sas_fms` otherwise. |
| Sections.ShelfGetImage | PureRackdiagram.py:94-111 | `FAShelf.get_image()` gives exactly the shelf section or its error. |
| Sections.CardsResultOk | PureRackdiagram.py:240-266 | The cards succeed exactly when every configured card's picture exists and the generation has a slot table. |
| Sections.CardsResultSize | PureRackdiagram.py:240-267 | Two asset pastes per configured card, and nothing else. |
| Sections.CardsResultPlaces | PureRackdiagram.py:249-267 | Each configured card is pasted at its slot position and again 378 px below, full height in slots 0–1 and half height in 2–3. |
| Sections.ChassisImageShape | PureRackdiagram.py:194-218 | A front bezel gives the bezel picture alone. Otherwise the section is `png/pure_fa_{gen}_{face}.png` carrying that face's tasks. |
| Sections.NvramPlain | PureRackdiagram.py:224-238 | Below model 70 there is no NVRAM. From 70 on, the NVRAM picture is pasted at the generation's two positions. |
| Sections.ChassisFrontSpots | PureRackdiagram.py:278-297 | The chassis front fills the first `min(20, total modules)` slots of its generation's table. |
| Sections.ChassisFrontNvram | PureRackdiagram.py:224-238 | The NVRAM picture appears on a chassis front exactly for models 70 and up. |
| Sections.ChassisFrontText | PureRackdiagram.py:307-318 | The model text `{GEN}{num}r{rel}` is drawn at the generation's position. |
| Sections.ChassisLabels | PureRackdiagram.py:299-305 | Chassis labels: one per datapack at offsets (130, 244), on the right exactly when it starts past slot 9. |
| Sections.ChassisBack | PureRackdiagram.py:240-276 | The chassis back is only asset pastes: two per configured card, then on FA//X the mezz picture at (585, 45) and (585, 425). |
| Sections.AddNvram | PureRackdiagram.py:224-238 | `add_nvram` gives exactly the NVRAM pastes or the missing-picture error. |
| Sections.AddCard | PureRackdiagram.py:249-267 | `add_card` fetches the card picture, then pastes it on both controllers. A generation without a slot table raises. |
| Sections.AddCards | PureRackdiagram.py:240-247 | `add_cards` runs `add_card` for every truthy slot, in slot order. |
| Sections.AddMezz | PureRackdiagram.py:269-276 | `add_mezz` pastes the mezz picture on both controllers, and only on FA//X. |
| Sections.FrontTasks | PureRackdiagram.py:208-211 | The front tasks are `add_fms`, `add_nvram` and `add_model_text`, in that order. |
| Sections.BackTasks | PureRackdiagram.py:212-214 | The back tasks are `add_cards`, then `add_mezz`. |
| Sections.ChassisGetImage | PureRackdiagram.py:193-218 | `FAChassis.get_image()` gives exactly the chassis section or its error. |
| Diagram.InitDiagramDefault | PureRackdiagram.py:678-686 | Without a model parameter the model is `fa-x20r2`. A model starting with neither `fa` nor `fb` is refused (`UnknownModel`). |
| Diagram.InitDiagramFA | PureRackdiagram.py:681-682 | An `fa` model builds a FlashArray configuration that keeps the lower-cased model. |
| Diagram.InitDiagramFB | PureRackdiagram.py:683-684 | An `fb` model builds the FlashBlade configuration of the request. |
| Diagram.InitDiagram | PureRackdiagram.py:676-688 | `init_diagram` gives exactly the dispatch function's diagram or error. |
| Diagram.GatherOk | PureRackdiagram.py:628 | Gathering succeeds exactly when every task does, and value k is task k's. |
| Diagram.GatherFirstError | PureRackdiagram.py:628 | A failed gather reports the first failing task's error. |
| Diagram.GatheredRows | PureRackdiagram.py:628-633 | Stacking gathered images gives one row per task, on a canvas whose size does not depend on the direction. |
| Diagram.GatheredRowsDown | PureRackdiagram.py:628-633 | Stacked top-down, row k is task k's image. |
| Diagram.GatheredRowsUp | PureRackdiagram.py:628-633 | Stacked bottom-up, row j is the image of task n-1-j. |
| Diagram.FATasksOk | PureRackdiagram.py:620-628 | When the chassis and every shelf give an image, every task succeeds. |
| Diagram.FAImageOk | PureRackdiagram.py:619-633 | When the chassis and every shelf give an image, the FA diagram exists, with one row per section. Its canvas has the size of the top-down stack. |
| Diagram.FAImageRowsDown | PureRackdiagram.py:619-633 | Top-down, the chassis is the first row and shelf k is row k+1. |
| Diagram.FAImageRowsUp | PureRackdiagram.py:619-633 | Bottom-up, the chassis is the last row and row j holds shelf n-1-j. |
| Diagram.FAImageChassisError | PureRackdiagram.py:619-628 | A failing chassis fails the whole FA diagram with its error. |
| Diagram.FAImageShelfError | PureRackdiagram.py:619-628 | With the chassis fine, a failing FA diagram reports the error of its first failing shelf. |
| Diagram.GatherTurn | PureRackdiagram.py:623-624 | Shelf i's task extends the gathered images, or ends the whole gather with its error. |
| Diagram.GatherSections | PureRackdiagram.py:620-628 | Running the tasks in order gives exactly the gathered sections or the first error. |
| Diagram.FAGetImage | PureRackdiagram.py:619-633 | `FADiagram.get_image()` gives exactly the oriented stack of the sections. |
| Diagram.GetImage | PureRackdiagram.py:699 | `diagram.get_image()` gives the FA or FB image of the diagram. |
| FlashBlade.FBConfigFacts | flashblade.py:7-11 | `chassis` is the integer value of its parameter, defaulting to 1, and a non-integer raises. A given `face` or `direction` is used lower-cased; the defaults are `front` and `up`. |
| FlashBlade.Init | flashblade.py:6-11 | `FBDiagram.__init__`, field by field, gives exactly the configuration function's result or error. |
| FlashBlade.CopiesTotals | flashblade.py:18-19 | n copies of one image are n times its height tall and its width wide. |
| FlashBlade.FBImageShape | flashblade.py:13-25 | The canvas is `w` wide and `chassis × h` tall, all copies of `png/pure_fb_{face}.png` flush left, one under the other. Zero chassis or a missing picture is an error. |
| FlashBlade.FetchCopies | flashblade.py:16-21 | One task per chassis, all under the same key: exactly `chassis` copies, with the picture decoded at most once. |
| FlashBlade.FBGetImage | flashblade.py:13-25 | `FBDiagram.get_image()` gives exactly the oriented stack of the copies. |

## Left out

- Concurrency: the `asyncio.Event` base-ready gates, `asyncio.gather`, `asyncio.Lock` and the `ThreadPoolExecutor` decode. Tasks run one after the other in creation order, and overlays are drawn after the base in task order. A failed gather reports the first failing task in that order; the source raises whichever fails first in time.
- The request handler (`handler`, `build_img`, `check_cache_and_upload`, `upload_img`): the race between the S3 lookup thread and the build thread, `queue.Queue`, task cancellation, the S3 calls, the redirect and base64 response shapes, and the `test` event branch. These are concurrency and network I/O.
- `generate_id`: a SHA-1 over the printed configuration, a foreign hash.
- `timeit` timing and logging: clock and I/O.
- Pixel work: PIL `paste`, `rotate`, `alpha_composite`, fonts, `textsize` and `draw.text`. Pastes are recorded as `Op`s. A module's rotation and label are flags on the pasted overlay. `apply_fm_label` is recorded as the two strings it writes. `add_model_text` is recorded as the text and its position. The text placement of `apply_dp_label` is left out because it uses float division; its box arithmetic is modelled.
- AssetCache.RackImage.GetImage: images are values, so the `.copy()` each caller receives has no observable counterpart. Aliasing between a caller's copy and the cached image is not modelled.
- Text.ParseInt: `int()` is modelled on ASCII input. Underscore digit separators and non-ASCII digits and whitespace are not accepted.
- Text.Lower: `lower()`/`upper()` are modelled on ASCII letters only.
- `FBDiagram` appears twice in the repository, in `flashblade.py` and in `PureRackdiagram.py:654-673`, with the same code. The model follows `flashblade.py`.
- Error messages: each error value is tagged by its cause and carries the offending input, while the source's exceptions carry their own messages. `init_diagram`'s message for an unknown model does not name the model (`PureRackdiagram.py:686`), and `add_card` for a generation without a slot table fails with an `UnboundLocalError` on `pci_loc` that does not name the generation (`PureRackdiagram.py:264`).
- test.py: a test harness over threads, files and modules that are not part of this model.
