# Combining single-plane images into one multi-dimensional image

This project is a Dafny model of two OMERO scripts.

`combineImages.py` takes a list of images and builds one new image from them.
Each source image holds one plane per (Z, C, T) index. Each source image is
placed into the new image by the Z, channel and time tokens that name
patterns find in its name. The model covers:

- **The name filter.** A non-empty `Filter_Names` string keeps only the images
  whose name contains it, in order.
- **The assignment of planes** (`assign_images_by_regex`):
  - On an axis where the first image has a single plane, the index comes from
    the name. It is 0 when the pattern is switched off or does not match. The
    axis size is the largest index plus one, and the smallest index is
    remembered as the axis start.
  - On an axis where the first image has several planes, they keep their own
    indices. The channel axis then takes its names from `Channel_Names`.
  - Channel tokens get channel indices in the order they are first seen.
  - A later image overwrites an earlier one at the same destination.
  - When either start is above 0, every destination is moved down by the
    starts and the sizes shrink by them.
- **The upload walk.** Channel is outer, Z middle and T inner. Each
  destination gets its assigned source plane, or a zero plane of X×Y pixels
  when it has none.
- **The channel range.** Each channel's display range is the minimum and
  maximum of its uploaded planes, seeded at 0.
- **The colour.** A channel takes the colour chosen for its index, else white.
- **The channel names.** The user's `Channel_Names` replace the leading names
  found. The new image's channels are renamed in order.
- **The image name.** It is the filter string when one is given, even an
  empty one, else `combinedImage`.
- **The physical pixel sizes** (`pick_pixel_sizes`). The first size noted
  among the fetched planes is used when all noted sizes agree in value and
  unit. Otherwise the size is left unset.

`batchNameChange.py` renames images. Each new name is built from the
dimensions Well, Field, Channel, Z and Time whose regex is switched on, in
that fixed order:

- Each dimension whose regex matches the old name adds its label and the
  matched token. A channel token listed in `chan_change` is translated first.
- An underscore follows every matched dimension except the last enabled one.

Some behaviour of the scripts shows up in the proofs; the model keeps it as
written:

- **Trailing underscore.** When the last enabled dimension does not match but
  an earlier one does, the new name ends in `_` (`Rename.TrailingUnderscore`).
- **Short channel list on a multi-channel axis.** When the first image has
  several channels, the channel count is the length of `Channel_Names`.
  Source channels beyond that list are never uploaded
  (`Assembly.WalkUploads` bounds the walk by the number of settings).

Modules:

- `Common`: options, destination coordinates, plane locators and decimal
  digits.
- `PixelSizes`: `pick_pixel_sizes`.
- `Assignment`: `assign_images_by_regex`.
- `Assembly`: the combinatorial part of `make_single_image` and the
  `colour_map` construction.
- `Rename`: `batchNameChange.py`.

Outside services become parameters:

- `names` stands for the name lookup.
- `pixels` stands for the per-image pixels query.
- `fetch` stands for reading a source plane.
- `colourMap`, `palette` and `white` stand for the colour table.
- `PixelStore`, a class holding a ghost log of every plane written, stands
  for the raw pixel store.

## Model

| member | source | states |
|---|---|---|
| PixelSizes.PickPixelSizes | combineImages.py:117-133 | the loop returns exactly `Agreed(sizes)`: None when a present size differs in value or unit from the first present one, else the first present size |
| PixelSizes.FirstPresentIsFirst | combineImages.py:122-128 | the size the loop keeps is None exactly when every entry is None, otherwise the entry at the least index holding a value |
| PixelSizes.AgreedIsNoneExactly | combineImages.py:123-132 | no size is picked exactly when nothing was noted or two noted sizes differ in value or in unit |
| PixelSizes.AgreedIsFirstPresent | combineImages.py:122-133 | when the noted sizes agree, the picked size is the first one noted |
| PixelSizes.AgreedExamples | combineImages.py:117-133 | three equal sizes give that size; 0.5 and 0.6 give none |
| Rename.KeepMembers | batchNameChange.py:44-52 | a dimension is kept exactly when it is listed and its regex is switched on |
| Rename.KeepAscending | batchNameChange.py:50-52 | keeping dimensions preserves the order of `dim_order` |
| Rename.AllDimsOrdered | batchNameChange.py:50 | `dim_order` lists all five dimensions in rank order |
| Rename.EnabledDimsMeaning | batchNameChange.py:44-52 | the enabled dimensions are exactly those whose regex is not `False`, in `dim_order` order |
| Rename.ShippedConfigDropsZ | batchNameChange.py:17-52 | with the shipped configuration (`z_regex = False`, the other four set) the enabled dimensions are Well, Field, Channel, Time |
| Rename.Found | batchNameChange.py:59-67 | one entry per enabled dimension: None when its search fails, else its label followed by the token, translated through `chan_change` for Channel only |
| Rename.NewName | batchNameChange.py:57-73 | the inner loop computes the new name `NewNameOf` of one image |
| Rename.RenameAll | batchNameChange.py:56-74 | one new name per image, in the order of the images, each `NewNameOf` its old name |
| Rename.BuiltBeforeLast | batchNameChange.py:59-72 | before the last enabled dimension, every matched text is followed by `_` and an unmatched dimension adds nothing |
| Rename.NameWhenLastMatched | batchNameChange.py:59-72 | when the last enabled dimension matches, the new name is the matched texts joined by `_` |
| Rename.NameWhenLastUnmatched | batchNameChange.py:59-72 | when the last enabled dimension does not match, the new name is every matched text followed by `_` |
| Rename.NothingMatchedGivesEmpty | batchNameChange.py:57-63 | when no dimension matches, the new name is empty |
| Rename.TrailingUnderscore | batchNameChange.py:59-72 | an unmatched last dimension after a matched one leaves a trailing `_` |
| Assignment.AxisIndex | combineImages.py:171-177 | the index is 0 when the pattern is off or does not match, else the decimal value of the matched digits |
| Assignment.ChannelLabel | combineImages.py:188-194 | the channel token is "0" when the pattern is off or does not match, else the matched text |
| Assignment.AxisOfIsMaxAndMin | combineImages.py:171-186 | on a single-plane axis the size is at least 1, above every index and equal to 1 or to some index plus one, and the start is the least index; on a multi-plane axis the size is native and the start 0 |
| Assignment.AxisOfSpan | combineImages.py:171-186 | on a single-plane axis the size is the largest index plus one and the start the smallest index |
| Assignment.AxisStartWithinSize | combineImages.py:179-183 | the start never exceeds the size |
| Assignment.AxisShrunk | combineImages.py:241-244 | after the shift, a single-plane axis spans largest minus smallest index plus one; a multi-plane axis keeps its native size |
| Assignment.Footprint | combineImages.py:221-239 | an image writes exactly the destinations on its axes (its own index on a multi-plane axis, the name's index on a single-plane one), each from the matching local plane |
| Assignment.PlaceImage | combineImages.py:221-239 | the nested loops over an image's planes overwrite the map with exactly that image's footprint |
| Assignment.IndexOf | combineImages.py:195-196 | `channels.index`: the first position holding the token |
| Assignment.ScanAxis | combineImages.py:171-186 | one pass over the Z or T axis yields the index from the name (single-plane axis) or 0, and the updated size and start |
| Assignment.ScanChannel | combineImages.py:188-201 | a single-plane channel axis gives the token's first index and appends only a new token; a multi-plane one takes `Channel_Names` |
| Assignment.ScanImage | combineImages.py:168-239 | one pass of the image loop performs exactly one scan step |
| Assignment.ScanInRange | combineImages.py:168-239 | after the scan every destination lies between the starts and the sizes, its channel below the channel count, and its source plane inside the source image |
| Assignment.ShiftAll | combineImages.py:245-248 | the shifted map holds a key exactly when the key moved back up is in the original, with the same source |
| Assignment.ShiftPlanes | combineImages.py:245-248 | the loop over the map builds exactly the shifted map |
| Assignment.ChannelTable | combineImages.py:252-254 | the table has exactly the keys 0 to n-1, the n-th holding the n-th channel |
| Assignment.TabulateChannels | combineImages.py:252-254 | the loop builds exactly the channel table |
| Assignment.Sources | combineImages.py:164-169 | one image per id, in order, named through the name lookup |
| Assignment.AssignImages | combineImages.py:135-256 | the function returns `Assign` of the named images: sizes, channel table and destination map |
| Assignment.FinishScan | combineImages.py:241-256 | shift when either start is above 0, otherwise the map is unchanged; the channel list becomes a table |
| Assignment.ScanAxes | combineImages.py:168-219 | the scanned Z and T axes are those of the indices read from the names, image by image |
| Assignment.FinishSizes | combineImages.py:241-244 | the final sizes are the scanned sizes minus the starts |
| Assignment.AssignedSizes | combineImages.py:168-244 | the final Z and T sizes are largest minus smallest index plus one on a single-plane axis, else the native size |
| Assignment.StepEntryInRange | combineImages.py:168-239 | after one image is scanned, each entry (its own or an earlier one) lies inside the axes and channels and points inside its source image |
| Assignment.FinishedAxes | combineImages.py:241-244 | a scan whose axes come from the given indices finishes with Z and T sizes equal to the index span on a single-plane axis, else the native size |
| Assignment.FinishInRange | combineImages.py:241-250 | finishing an in-range scan leaves every entry below the final sizes and inside the channel table |
| Assignment.AssignedInRange | combineImages.py:168-250 | every final destination is below the final Z and T sizes and inside the channel table (or below the native channel count), and its source plane lies inside the source image |
| Assignment.LastWins | combineImages.py:221-239 | a destination written by image j and by no later image holds image j's plane after the scan |
| Assignment.UnhitIsAbsent | combineImages.py:221-239 | a destination that no image writes is absent from the map |
| Assignment.FinishEntry | combineImages.py:245-248 | each scanned entry appears, moved down by the starts, with the same source |
| Assignment.AssignedLastWins | combineImages.py:221-250 | in the final map, a destination written last by image j, moved down by the starts, holds image j's plane |
| Assignment.ScanChannels | combineImages.py:188-199 | on a single-plane channel axis the channel list is the tokens in order of first appearance |
| Assignment.FirstSeenMembers | combineImages.py:195-199 | the channel list has no repeats and holds exactly the tokens seen |
| Assignment.FirstSeenOrder | combineImages.py:195-199 | channels are ordered by the first image carrying each token |
| Assignment.ChannelsGrow | combineImages.py:195-199 | the channel list of a prefix of the images is a prefix of the final list |
| Assignment.FirstSeenGrows | combineImages.py:195-199 | the first-seen channel list of a prefix of the labels is a prefix of the list of all labels |
| Assignment.ChannelOfImage | combineImages.py:188-231 | every image's planes go to the channel whose final name is that image's token |
| Assignment.ChannelsGiven | combineImages.py:200-201 | on a multi-plane channel axis the channel list is `Channel_Names` |
| Assignment.AssignedChannels | combineImages.py:252-254 | the returned channel table is the table of the scanned channel list |
| Assembly.OrderLength | combineImages.py:336-340 | the walk has channels × Z × T steps |
| Assembly.OrderMember | combineImages.py:336-340 | the walk visits a destination exactly when it is inside the new image's box |
| Assembly.OrderIncreasing | combineImages.py:336-340 | the walk is strictly increasing in (channel, Z, T) order, so no destination is visited twice |
| Assembly.WalkUploads | combineImages.py:336-355 | one upload per walk step, the i-th for the i-th destination; the walk covers exactly the box, in increasing order |
| Assembly.PixelStore.constructor | combineImages.py:332-333 | a new store has written nothing |
| Assembly.PixelStore.UploadPlane | combineImages.py:354-355 | uploading appends exactly that plane at (z, c, t) to the log |
| Assembly.Zeros | combineImages.py:351-352 | the zero plane has the given pixel count, all 0 |
| Assembly.UploadsAt | combineImages.py:341-355 | the uploads of a walk are pointwise the uploads of its destinations, assigned plane or zeros |
| Assembly.FloorIsMinimum | combineImages.py:356 | the running minimum is at most the previous value and every pixel, and equals one of them |
| Assembly.CeilingIsMaximum | combineImages.py:357 | the running maximum is at least the previous value and every pixel, and equals one of them |
| Assembly.LowIsMinimum | combineImages.py:337-356 | a minimum seeded at 0 is at most 0 and every uploaded pixel, and is 0 or one of them |
| Assembly.HighIsMaximum | combineImages.py:338-357 | a maximum seeded at 0 is at least 0 and every uploaded pixel, and is 0 or one of them |
| Assembly.VisitPlane | combineImages.py:341-357 | one step uploads the assigned plane or zeros, notes the source's pixels only for a fetched plane, and updates the running minimum and maximum |
| Assembly.UploadRow | combineImages.py:340-357 | the T loop uploads the row's planes in order and folds them into the tally |
| Assembly.UploadChannel | combineImages.py:337-357 | the Z and T loops of one channel upload its planes in order, starting the range at 0 |
| Assembly.TallyRange | combineImages.py:337-357 | a channel's range started at 0 is the minimum and maximum of its uploads |
| Assembly.TallySizes | combineImages.py:348-350 | sizes are noted, in walk order, for fetched planes only |
| Assembly.TallyMeaning | combineImages.py:337-357 | a channel's tally is its range together with the sizes noted for its fetched planes |
| Assembly.SettingsNext | combineImages.py:336-368 | the settings of one more channel are those before it followed by that channel's range and colour |
| Assembly.SetUpChannel | combineImages.py:336-368 | one pass of the channel loop uploads the channel's planes and yields its range and colour (the chosen colour, else white) |
| Assembly.UploadAll | combineImages.py:335-368 | the channel loop uploads the whole walk and yields every channel's setting and the sizes noted in walk order |
| Assembly.BuildColourMap | combineImages.py:69-73 | channel c has a colour exactly when the c-th requested colour is in the palette, and it is that palette entry |
| Assembly.Overridden | combineImages.py:314-316 | the names after the override: max of both lengths, the user's name below its list's length, the found name beyond it |
| Assembly.OverrideNames | combineImages.py:314-316 | writing the user's names index by index yields exactly the overridden table |
| Assembly.OverrideTable | combineImages.py:314-316 | overriding the found table is the table of the overridden name list |
| Assembly.RenameChannels | combineImages.py:373-382 | walking `count` channels and stopping at the table's size gives min(count, size) labels, the i-th being the table's i-th name |
| Assembly.TableSize | combineImages.py:310 | the channel count `len(c_names)` is the number of channels found |
| Assembly.RenamedFromList | combineImages.py:373-382 | renaming from the table of a list gives the list's first min(count, length) names |
| Assembly.ContainsIff | combineImages.py:284 | `find(part) > -1` holds exactly when `part` occurs at some index |
| Assembly.FilteredConcat | combineImages.py:283-284 | the filter keeps the order of the ids |
| Assembly.FilteredMembers | combineImages.py:283-284 | an id is kept exactly when it is listed and its name contains the filter |
| Assembly.SelectionNamed | combineImages.py:279-284 | every id kept by the filter has a name |
| Assembly.NameChannels | combineImages.py:310-382 | the channel count is the number of channels found; the labels are the user's names where given, else the found names, one per channel |
| Assembly.Assemble | combineImages.py:310-394 | the image built once the planes are assigned is `Build`, and the store receives exactly the walk's uploads |
| Assembly.BuildImage | combineImages.py:286-394 | the first selected image sets X, Y and native sizes; the planes are assigned and assembled, with exactly the walk's uploads |
| Assembly.MakeSingleImage | combineImages.py:259-406 | the outcome is `Make`: nothing when no ids, no image when the filter keeps none, else the built image after uploading exactly its walk; nothing is written otherwise |
| Assembly.MakeOutcomes | combineImages.py:266-286 | the call ends early exactly when no ids are given and finds nothing exactly when the filter keeps no id; a made image lists the ids kept |
| Assembly.BuiltChannels | combineImages.py:310-382 | the new image has one setting and one label per channel found; label c is the user's c-th name when given, else the found one; colour c is the chosen one, else white |
| Assembly.ChannelRange | combineImages.py:336-357 | a channel's range contains 0 and every pixel of every plane uploaded for it, zero planes included |
| Assembly.ChannelLowAttained | combineImages.py:337-356 | a channel's minimum other than 0 is a pixel of one of its planes |
| Assembly.ChannelHighAttained | combineImages.py:338-357 | a channel's maximum other than 0 is a pixel of one of its planes |
| Assembly.BuiltRange | combineImages.py:336-361 | in the new image, each channel's range contains every pixel uploaded for that channel |

## Left out

- OMERO services are not modelled: the rendering engine, the queries, `createImage`, the saving and the dataset link (`combineImages.py:397-404`). Their results are parameters or fields of the result record.
- The textual description of the new image (`combineImages.py:324`) and the diagnostic print (line 312) are not modelled.
- The regex engine and the pattern tables (`combineImages.py:15-37`, `batchNameChange.py:17-21`) are not modelled. A pattern is a search function: switched off, or returning the named group's text or nothing. The `\d+` groups are non-empty digit strings.
- `get_image_names` and the per-image pixels query are functions passed in. Every listed id is required to have a name, as the script's dictionary lookup demands.
- The `KeyError` the script raises without `Channel_Names` when the first image has several channels becomes the precondition `NamesGiven`.
- The `IndexError` the script raises when the filter keeps no image becomes the outcome `NoMatch`.
- Pixel values are integers. numpy's pixel types, the `float` conversion of the range and the row-by-row upload are not modelled.
- numpy fails on `min()` of an empty plane. The model's `Floor` and `Ceiling` of an empty plane keep the running value.
- Physical sizes are a real value with a unit string, compared for equality. OMERO's length objects are not modelled.
- Colours are opaque values: `white` stands for `COLOURS["White"]` and `palette` for `COLOURS`.
- The rendering-settings reset is the `Setting` record of each channel.
- The script entry (`combineImages.py:409-425`) and the top-level script code (`combineImages.py:40-67`) are not modelled. This covers the parameter map, the case-insensitive sort of the dataset's images and the default channel names read from the first image.
- `batchNameChange.py`: the connection, the listing and sorting of the dataset's images (lines 32-42) and the final `setName`/`save` (76-78) are not modelled.
- Rename.RenameAll: takes the enabled dimensions as an argument. The script passes `EnabledDims` of its regexes.
- A regex group that matches nothing inside a successful match is not modelled. The script would fail concatenating `None`; the model treats every successful search as yielding text.
- Assembly.RenameChannels: requires the channel table to be keyed 0 to n-1. Every table the script builds is (`enumerate` at 252-254 and 315-316); any other table would make the script raise `KeyError`.
