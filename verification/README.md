# OneNote parser core: object resolution, page-series traversal, length-prefixed items

A Dafny model of three pieces of the OneNote parser in
`packages/onenote-converter/parser`:

- **Object resolution** (`fsshttpb_onestore/object.rs`, sections 2.1.5 and 2.7.6
  of [MS-ONESTOR]). `OneStoreObject.Parse` turns the object group data of a
  revision into one resolved object. The group data is a map keyed by object id
  and partition value: Metadata = 4, ObjectData = 1, FileData = 2. The steps,
  in the order the code runs them:
  1. Fetch the metadata and object-data entries.
  2. Check that both are `Object` entries. The schema tag (`JcId`) is parsed
     between the two checks.
  3. Parse the property set.
  4. Resolve the optional file-data blob through the package.
  5. Split the referenced cells into same-space context refs and cross-space
     refs.
  6. Run the two count checks.
  7. Build the mapping table by positional zipping.
- **Page-series traversal** (`onenote/page_series.rs`, section 2.2.18 of
  [MS-ONE]). `PageSeriesParse.Parse` fetches the series' root object and parses
  it into a node. It then maps each declared page-space id to an object space
  and then to a page. Declared order is kept, and the traversal stops at the
  first failure.
- **Length-prefixed byte item** (`fsshttpb/data/binary_item.rs`, section
  2.2.1.3 of [MS-FSSHTTPB]). `BinaryItemParse.Parse` reads a compact unsigned
  64-bit size from a byte cursor, then reads exactly that many bytes.

Everything is pure: immutable datatypes, and functions returning a `Result`
whose `Error` carries the exact reason strings of the code. That includes the
code's spelling "object metadata it not an object". The schema-tag parser, the property-set parser, the compact-integer decoder,
the page-series-node parser and the page parser are not modelled: each is a
function-valued parameter that may fail. The store and the blob package are
partial maps.

### Points of the code the model keeps as written

- **Object-ref count check.** The check at `object.rs:99` is one-sided: it
  fails only when the declared object ids are *fewer* than the object refs.
  Surplus declared ids pass, and the zip drops them.
  `OneStoreObject.ObjectRefCheckIsOneSided` exhibits both directions.
- **Summed cell check.** The check at `object.rs:106` compares the sum of the
  declared context and object-space ids with the number of cells, so each of
  the two cell zips may still truncate. `OneStoreObject.CellCheckIsSummed`
  exhibits it.
- **Order of the file-data step.** File data is resolved at
  `object.rs:78-85`, before the count checks, so a file-data error wins over a
  count error.
- **Presence and variant checks.** Both presence checks at `object.rs:44-47`
  run before either variant check. The `JcId` parse at `object.rs:60` sits
  between the two variant checks.

## Model

| member | source | states |
|---|---|---|
| OneStoreObject.FindObject | packages/onenote-converter/parser/src/fsshttpb_onestore/object.rs:151-157 | a lookup finds an entry exactly when the key (id, partition wire value) is in the group data, and returns that entry |
| OneStoreObject.PartitionKeysDistinct | packages/onenote-converter/parser/src/fsshttpb_onestore/object.rs:29-34 | the partition wire values are Metadata = 4, ObjectData = 1, FileData = 2, and distinct partitions never share a key |
| OneStoreObject.FindBlobId | packages/onenote-converter/parser/src/fsshttpb_onestore/object.rs:159-168 | no file-data entry gives Ok(None); an `Object` entry there fails with "blob object is not a blob"; a blob reference gives its blob id |
| OneStoreObject.ResolveFileData | packages/onenote-converter/parser/src/fsshttpb_onestore/object.rs:78-85 | no file-data entry gives no file data; a non-blob entry fails; a blob id absent from the package fails with "blob not found"; otherwise the package's blob |
| OneStoreObject.ContextRefs | packages/onenote-converter/parser/src/fsshttpb_onestore/object.rs:87-91 | an id is a context ref exactly when a cell (id, object space) occurs among the referenced cells |
| OneStoreObject.ObjectSpaceRefs | packages/onenote-converter/parser/src/fsshttpb_onestore/object.rs:93-97 | a cell is an object-space ref exactly when it is a referenced cell whose space differs from the object space |
| OneStoreObject.SplitLengths | packages/onenote-converter/parser/src/fsshttpb_onestore/object.rs:87-97 | the context refs and the object-space refs together number exactly the referenced cells |
| OneStoreObject.SplitAppend | packages/onenote-converter/parser/src/fsshttpb_onestore/object.rs:87-97 | splitting commutes with concatenation, so both lists keep the cells' original order |
| OneStoreObject.SplitSingle | packages/onenote-converter/parser/src/fsshttpb_onestore/object.rs:87-97 | a same-space cell contributes its context id to the context refs; any other cell contributes itself, whole, to the object-space refs |
| OneStoreObject.BuildMapping | packages/onenote-converter/parser/src/fsshttpb_onestore/object.rs:113-130 | the i-th declared object id pairs with the i-th object ref, followed by the i-th context id with the i-th context ref; the i-th object-space id pairs with the i-th cross-space cell; each count is the minimum of the two list lengths |
| Shared.Zip | packages/onenote-converter/parser/src/fsshttpb_onestore/object.rs:113-125 | zipping pairs elements position by position and stops at the shorter list |
| OneStoreObject.Parse | packages/onenote-converter/parser/src/fsshttpb_onestore/object.rs:37-149 | success exactly when every entry is in order. Otherwise the first failing step gives the error: metadata missing, data missing, metadata not an object, schema-tag parse error, data not an object, property-set parse error, file-data errors, object-ref count (iff declared ids < object refs), cell count (iff sum ≠ cells). On success the object carries the given context id, the parsed tag and props, the file blob exactly when a file-data entry exists, and the positional mapping |
| OneStoreObject.ResolvedMapping | packages/onenote-converter/parser/src/fsshttpb_onestore/object.rs:99-130 | on success every object ref is mapped to its declared id in position; the context zip falls short by exactly as much as the object-space zip is long, so both are exact or neither is |
| OneStoreObject.ObjectRefCheckIsOneSided | packages/onenote-converter/parser/src/fsshttpb_onestore/object.rs:99-104 | two declared ids over one object ref resolve and the surplus id gets no entry; one declared id under two object refs fails with the object-ref error |
| OneStoreObject.CellCheckIsSummed | packages/onenote-converter/parser/src/fsshttpb_onestore/object.rs:106-125 | a declared context id with only one cross-space cell passes the summed check, and neither gets a mapping entry |
| OneStoreObject.PairingIsPositional | packages/onenote-converter/parser/src/fsshttpb_onestore/object.rs:113-117 | declared ids [A, B] over object refs [X, Y] map A to X and B to Y |
| PageSeriesParse.LoadPage | packages/onenote-converter/parser/src/onenote/page_series.rs:39-44 | one step of the traversal: an id with no object space in the store fails with "page space is missing"; otherwise the step's outcome is exactly the page parser's outcome on that object space |
| PageSeriesParse.CollectPages | packages/onenote-converter/parser/src/onenote/page_series.rs:35-45 | success exactly when every step succeeds, with one page per id in declared order, each the parse of that id's object space. A failure carries the error of a step that every earlier step passed |
| PageSeriesParse.FirstFailureDecides | packages/onenote-converter/parser/src/onenote/page_series.rs:38-45 | when step k is the first to fail, the traversal fails with exactly step k's error |
| PageSeriesParse.CollectStopsAtFirstFailure | packages/onenote-converter/parser/src/onenote/page_series.rs:38-45 | when step k is the first to fail, its error is the result. Changing the ids after k, or what the store holds for them, changes nothing |
| PageSeriesParse.FirstFailureIsResult | packages/onenote-converter/parser/src/onenote/page_series.rs:38-45 | for every step that is the first to fail, its error (missing page space or page-parse error) is the traversal's error, unchanged |
| PageSeriesParse.FirstMissingSpace | packages/onenote-converter/parser/src/onenote/page_series.rs:39-41 | a page-space id missing from the store, reached with all earlier steps passing, fails with "page space is missing" |
| PageSeriesParse.Parse | packages/onenote-converter/parser/src/onenote/page_series.rs:28-48 | a missing root fails with "page series object is missing"; a root-node parse error passes unchanged; an empty page-space list gives an empty series; the first failing step's error (missing page space or page-parse error) is the result, unchanged; otherwise the pages match the declared page spaces one for one, in order |
| PageSeriesParse.PageSeries.Pages | packages/onenote-converter/parser/src/onenote/page_series.rs:23-25 | the pages returned rebuild the same series |
| Shared.Reader.Read | packages/onenote-converter/parser/src/fsshttpb/data/binary_item.rs:16 | reading n bytes succeeds exactly when n bytes remain, yields the next n bytes and moves the cursor past them; otherwise it fails with end of input |
| BinaryItemParse.Parse | packages/onenote-converter/parser/src/fsshttpb/data/binary_item.rs:14-19 | a size-decoder failure passes unchanged. Otherwise an item exists iff size bytes follow the header, and fails with end of input if not. On success the item is the size bytes right after the header, and the cursor advances by header length plus size |
| BinaryItemParse.ParseEmptyItem | packages/onenote-converter/parser/src/fsshttpb/data/binary_item.rs:15-18 | a size of zero gives an empty item and consumes only the header |
| BinaryItemParse.ParseFramedItem | packages/onenote-converter/parser/src/fsshttpb/data/binary_item.rs:14-19 | a header the decoder reads as the length of the data, followed by that data and anything else, parses back to exactly that data and leaves the cursor on what follows |
| BinaryItemParse.BinaryItem.Value | packages/onenote-converter/parser/src/fsshttpb/data/binary_item.rs:21-23 | the bytes handed out rebuild the same item |

## Left out

- Compact-integer, `JcId` and property-set byte layouts are not modelled. Each
  is a parameter that may fail. The compact-integer decoder reports its value
  and header length, and is assumed to claim no more bytes than it is given.
- `MappingTable::from_entries` is not part of this model. The table is the two
  ordered entry lists it receives, so lookups and duplicate-key handling are
  not modelled.
- The `OneStore` trait, `ObjectSpaceRef`, `page_series_node::parse` and
  `parse_page` are not part of this model. The store is two partial maps: root
  objects by id, and object spaces by id. The two parsers are parameters.
- `OneStorePackaging::find_blob` is a partial map from blob id to bytes.
- The `From<BinaryItem> for FileBlob` conversion is not part of this model: it
  only re-wraps the bytes.
- `parser_utils::Reader` is modelled as a buffer
  plus position whose `Read` fails with end of input when too few bytes remain.
- `Rc` sharing and `Rc<dyn ObjectFileData>` boxing concern ownership, not
  behaviour.
- The `size as usize` cast in `binary_item.rs:16` assumes a 64-bit `usize`.
  The cast is then the identity on the decoded value, which is below 2^64.
- `one/property_set/ink_container.rs` is per-schema field extraction over
  property parsers that are not modelled, with `f32` fields. Its line 30 reads
  `InkScalingX` for `ink_scaling_y`, which looks like a copy slip; it is not
  modelled.
