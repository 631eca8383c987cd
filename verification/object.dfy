/** Resolution of one OneStore data object from the object group data of a
    revision (sections 2.1.5 and 2.7.6 of [MS-ONESTOR]): the metadata, object
    data and optional file data entries of an object id are fetched, checked
    and combined into a resolved object carrying its schema tag, its property
    set, its file blob and the mapping table that translates declared
    reference ids into the cells and objects they point to.

    The byte-level parsers of the schema tag and of the property set are not
    part of this model; they are parameters and may fail. */
module OneStoreObject {
  import opened Shared

  /** The partitions an object's data is split across, with their wire values. */
  datatype Partition = Metadata | ObjectData | FileData {

    function Value(): nat {
      match this
      case Metadata => 4
      case ObjectData => 1
      case FileData => 2
    }
  }

  /** One entry of the object group data. */
  datatype ObjectGroupData =
    | Object(group: seq<ExGuid>, cells: seq<CellId>, data: seq<byte>)
    | BlobReference(blob: ExGuid)

  /** The object group data of a revision, keyed by object id and partition value. */
  type GroupData = map<(ExGuid, nat), ObjectGroupData>

  /** The package's blob store: the blobs it holds, by id. */
  type Packaging = map<ExGuid, FileBlob>

  /** A parsed property set: the three declared reference lists, and the
      property values, which stay opaque here. */
  datatype ObjectPropSet = ObjectPropSet(
    objectIds: seq<CompactId>,
    objectSpaceIds: seq<CompactId>,
    contextIds: seq<CompactId>,
    properties: seq<byte>)

  /** The mapping table, as the two ordered entry lists it is built from:
      object and context references, and object-space references. */
  datatype MappingTable = MappingTable(
    objects: seq<(CompactId, ExGuid)>,
    objectSpaces: seq<(CompactId, CellId)>)

  /** A resolved object. */
  datatype SharedObject = SharedObject(
    contextId: ExGuid,
    jcId: JcId,
    props: ObjectPropSet,
    fileData: Option<FileBlob>,
    mapping: MappingTable)

  /** The byte-level parsers the resolver calls on the two payloads. */
  datatype Parsers = Parsers(
    jcId: seq<byte> -> Result<JcId>,
    propSet: seq<byte> -> Result<ObjectPropSet>)

  const MetadataMissing := MalformedOneStoreData("object metadata is missing")
  const DataMissing := MalformedOneStoreData("object data is missing")
  const MetadataNotObject := MalformedOneStoreData("object metadata it not an object")
  const DataNotObject := MalformedOneStoreData("object data it not an object")
  const BlobNotABlob := MalformedOneStoreData("blob object is not a blob")
  const BlobNotFound := MalformedOneStoreData("blob not found")
  const ObjectRefMismatch := MalformedOneStoreData("object ref array sizes do not match")
  const CellCountMismatch := MalformedOneStoreData("object space/context array sizes do not match")

  /** Looks an object id up in one partition. */
  function FindObject(id: ExGuid, partition: Partition, objects: GroupData): (r: Option<ObjectGroupData>)
    ensures r.Some? <==> (id, partition.Value()) in objects
    ensures r.Some? ==> r.value == objects[(id, partition.Value())]
  {
    if (id, partition.Value()) in objects then Some(objects[(id, partition.Value())]) else None
  }

  /** The three partitions use three different keys for the same id, so
      their lookups never see each other's entries. */
  lemma PartitionKeysDistinct(id: ExGuid, p: Partition, q: Partition)
    ensures p.Value() == q.Value() <==> p == q
    ensures Metadata.Value() == 4 && ObjectData.Value() == 1 && FileData.Value() == 2
  {
  }

  /** The blob id of the object's file-data entry, if it has one. */
  function FindBlobId(id: ExGuid, objects: GroupData): (r: Result<Option<ExGuid>>)
    ensures r == Ok(None) <==> (id, FileData.Value()) !in objects
    ensures r.Err? <==> (id, FileData.Value()) in objects && objects[(id, FileData.Value())].Object?
    ensures r.Err? ==> r.error == BlobNotABlob
    ensures r.Ok? && r.value.Some? ==> objects[(id, FileData.Value())] == BlobReference(r.value.value)
  {
    match FindObject(id, FileData, objects)
    case None => Ok(None)
    case Some(BlobReference(blob)) => Ok(Some(blob))
    case Some(Object(_, _, _)) => Err(BlobNotABlob)
  }

  /** The object's file data: absent when it has no file-data entry,
      otherwise the package's blob for the entry's blob id. */
  function ResolveFileData(id: ExGuid, objects: GroupData, packaging: Packaging): (r: Result<Option<FileBlob>>)
    ensures (id, FileData.Value()) !in objects ==> r == Ok(None)
    ensures (id, FileData.Value()) in objects ==>
              match objects[(id, FileData.Value())]
              case Object(_, _, _) => r == Err(BlobNotABlob)
              case BlobReference(blob) =>
                if blob in packaging then r == Ok(Some(packaging[blob])) else r == Err(BlobNotFound)
  {
    match FindBlobId(id, objects)
    case Err(e) => Err(e)
    case Ok(None) => Ok(None)
    case Ok(Some(blob)) =>
      if blob in packaging then Ok(Some(packaging[blob])) else Err(BlobNotFound)
  }

  /** The context ids of the cells owned by `space`, in their original order. */
  function ContextRefs(cells: seq<CellId>, space: ExGuid): (r: seq<ExGuid>)
    ensures forall x :: x in r <==> CellId(x, space) in cells
  {
    if |cells| == 0 then []
    else (if cells[0].space == space then [cells[0].context] else []) + ContextRefs(cells[1..], space)
  }

  /** The cells owned by some other space, whole, in their original order. */
  function ObjectSpaceRefs(cells: seq<CellId>, space: ExGuid): (r: seq<CellId>)
    ensures forall c :: c in r <==> c in cells && c.space != space
  {
    if |cells| == 0 then []
    else (if cells[0].space != space then [cells[0]] else []) + ObjectSpaceRefs(cells[1..], space)
  }

  /** Every cell lands in exactly one of the two lists. */
  lemma {:induction false} SplitLengths(cells: seq<CellId>, space: ExGuid)
    ensures |ContextRefs(cells, space)| + |ObjectSpaceRefs(cells, space)| == |cells|
    decreases |cells|
  {
    if |cells| > 0 {
      SplitLengths(cells[1..], space);
    }
  }

  /** Splitting keeps the original order: the split of a concatenation is
      the concatenation of the splits. */
  lemma {:induction false} SplitAppend(a: seq<CellId>, b: seq<CellId>, space: ExGuid)
    ensures ContextRefs(a + b, space) == ContextRefs(a, space) + ContextRefs(b, space)
    ensures ObjectSpaceRefs(a + b, space) == ObjectSpaceRefs(a, space) + ObjectSpaceRefs(b, space)
    decreases |a|
  {
    if |a| > 0 {
      assert (a + b)[1..] == a[1..] + b;
      SplitAppend(a[1..], b, space);
    } else {
      assert a + b == b;
    }
  }

  /** A single cell goes to the context list as its context id when its
      space is `space`, and to the object-space list whole otherwise. */
  lemma SplitSingle(c: CellId, space: ExGuid)
    ensures c.space == space ==> ContextRefs([c], space) == [c.context] && ObjectSpaceRefs([c], space) == []
    ensures c.space != space ==> ContextRefs([c], space) == [] && ObjectSpaceRefs([c], space) == [c]
  {
    assert [c][1..] == [];
  }

  /** The mapping table: declared object ids paired by position with the
      object refs, then declared context ids paired with the context refs;
      separately, declared object-space ids paired with the cross-space cells. */
  function BuildMapping(props: ObjectPropSet, objectRefs: seq<ExGuid>, cells: seq<CellId>, space: ExGuid): (m: MappingTable)
    ensures var k := Min(|props.objectIds|, |objectRefs|);
            var contexts := ContextRefs(cells, space);
            && |m.objects| == k + Min(|props.contextIds|, |contexts|)
            && (forall i :: 0 <= i < k ==> m.objects[i] == (props.objectIds[i], objectRefs[i]))
            && (forall i :: k <= i < |m.objects| ==> m.objects[i] == (props.contextIds[i - k], contexts[i - k]))
    ensures var spaces := ObjectSpaceRefs(cells, space);
            && |m.objectSpaces| == Min(|props.objectSpaceIds|, |spaces|)
            && forall i :: 0 <= i < |m.objectSpaces| ==> m.objectSpaces[i] == (props.objectSpaceIds[i], spaces[i])
  {
    MappingTable(
      Zip(props.objectIds, objectRefs) + Zip(props.contextIds, ContextRefs(cells, space)),
      Zip(props.objectSpaceIds, ObjectSpaceRefs(cells, space)))
  }

  /** Everything resolution needs, stated entry by entry: both payload
      entries are objects whose payloads parse, the file-data entry is
      absent or a blob reference the package can serve, and the declared
      reference counts pass the two checks. */
  predicate Resolvable(objectId: ExGuid, objects: GroupData, packaging: Packaging, parsers: Parsers) {
    && (objectId, Metadata.Value()) in objects
    && (objectId, ObjectData.Value()) in objects
    && var md := objects[(objectId, Metadata.Value())];
    && var dt := objects[(objectId, ObjectData.Value())];
    && md.Object? && dt.Object?
    && parsers.jcId(md.data).Ok?
    && parsers.propSet(dt.data).Ok?
    && ((objectId, FileData.Value()) in objects ==>
          objects[(objectId, FileData.Value())].BlobReference?
          && objects[(objectId, FileData.Value())].blob in packaging)
    && var props := parsers.propSet(dt.data).value;
    && |props.objectIds| >= |dt.group|
    && |props.contextIds| + |props.objectSpaceIds| == |dt.cells|
  }

  /** Resolves the object `objectId` of context `contextId` in object space
      `objectSpaceId`. */
  function Parse(objectId: ExGuid, contextId: ExGuid, objectSpaceId: ExGuid,
                 objects: GroupData, packaging: Packaging, parsers: Parsers): (r: Result<SharedObject>)
    // success exactly when every entry is in order
    ensures r.Ok? <==> Resolvable(objectId, objects, packaging, parsers)
    // presence of both payload entries is checked first, metadata before data
    ensures (objectId, Metadata.Value()) !in objects ==> r == Err(MetadataMissing)
    ensures (objectId, Metadata.Value()) in objects && (objectId, ObjectData.Value()) !in objects ==>
              r == Err(DataMissing)
    // then the variants, with the schema tag parsed in between
    ensures (objectId, Metadata.Value()) in objects && (objectId, ObjectData.Value()) in objects ==>
              var md := objects[(objectId, Metadata.Value())];
              var dt := objects[(objectId, ObjectData.Value())];
              && (md.BlobReference? ==> r == Err(MetadataNotObject))
              && (md.Object? && parsers.jcId(md.data).Err? ==> r == Err(parsers.jcId(md.data).error))
              && (md.Object? && parsers.jcId(md.data).Ok? && dt.BlobReference? ==> r == Err(DataNotObject))
              && (md.Object? && parsers.jcId(md.data).Ok? && dt.Object? ==>
                    // then the property set, then the file data, then the counts
                    if parsers.propSet(dt.data).Err? then r == Err(parsers.propSet(dt.data).error)
                    else if ResolveFileData(objectId, objects, packaging).Err? then
                      r == Err(ResolveFileData(objectId, objects, packaging).error)
                    else
                      var props := parsers.propSet(dt.data).value;
                      && (r == Err(ObjectRefMismatch) <==> |props.objectIds| < |dt.group|)
                      && (r == Err(CellCountMismatch) <==>
                            |props.objectIds| >= |dt.group|
                            && |props.contextIds| + |props.objectSpaceIds| != |dt.cells|))
    // a resolved object carries what was given and what was parsed
    ensures r.Ok? ==>
              var md := objects[(objectId, Metadata.Value())];
              var dt := objects[(objectId, ObjectData.Value())];
              && r.value.contextId == contextId
              && parsers.jcId(md.data) == Ok(r.value.jcId)
              && parsers.propSet(dt.data) == Ok(r.value.props)
              && (r.value.fileData.Some? <==> (objectId, FileData.Value()) in objects)
              && (r.value.fileData.Some? ==>
                    r.value.fileData.value == packaging[objects[(objectId, FileData.Value())].blob])
              && r.value.mapping == BuildMapping(r.value.props, dt.group, dt.cells, objectSpaceId)
  {
    var md := FindObject(objectId, Metadata, objects);
    var dt := FindObject(objectId, ObjectData, objects);
    if md.None? then Err(MetadataMissing)
    else if dt.None? then Err(DataMissing)
    else if !md.value.Object? then Err(MetadataNotObject)
    else
      var jcId := parsers.jcId(md.value.data);
      if jcId.Err? then Err(jcId.error)
      else if !dt.value.Object? then Err(DataNotObject)
      else
        var props := parsers.propSet(dt.value.data);
        if props.Err? then Err(props.error)
        else
          var fileData := ResolveFileData(objectId, objects, packaging);
          if fileData.Err? then Err(fileData.error)
          else
            var objectRefs := dt.value.group;
            var cells := dt.value.cells;
            if |props.value.objectIds| < |objectRefs| then Err(ObjectRefMismatch)
            else if |props.value.contextIds| + |props.value.objectSpaceIds| != |cells| then Err(CellCountMismatch)
            else
              Ok(SharedObject(contextId, jcId.value, props.value, fileData.value,
                              BuildMapping(props.value, objectRefs, cells, objectSpaceId)))
  }

  /** What a successful resolution implies for the mapping table. The
      object-ref check admits surplus declared object ids, so every object
      ref is mapped and the surplus ids are dropped. The summed check does
      not make each zip length-matched, but what the context zip is short
      by, the object-space zip is long by, so both are exact or neither is. */
  lemma {:induction false} ResolvedMapping(objectId: ExGuid, contextId: ExGuid, objectSpaceId: ExGuid,
                                           objects: GroupData, packaging: Packaging, parsers: Parsers)
    requires Parse(objectId, contextId, objectSpaceId, objects, packaging, parsers).Ok?
    ensures var o := Parse(objectId, contextId, objectSpaceId, objects, packaging, parsers).value;
            var dt := objects[(objectId, ObjectData.Value())];
            var contexts := ContextRefs(dt.cells, objectSpaceId);
            var spaces := ObjectSpaceRefs(dt.cells, objectSpaceId);
            && |o.props.objectIds| >= |dt.group|
            && |o.mapping.objects| == |dt.group| + Min(|o.props.contextIds|, |contexts|)
            && (forall i :: 0 <= i < |dt.group| ==> o.mapping.objects[i] == (o.props.objectIds[i], dt.group[i]))
            && (|o.props.contextIds| - |contexts| == |spaces| - |o.props.objectSpaceIds|)
            && (|o.props.contextIds| == |contexts| <==> |o.props.objectSpaceIds| == |spaces|)
  {
    var dt := objects[(objectId, ObjectData.Value())];
    SplitLengths(dt.cells, objectSpaceId);
  }

  /** The entries of an object with empty metadata and data payloads. */
  function PlainObject(id: ExGuid, objectRefs: seq<ExGuid>, cells: seq<CellId>): GroupData {
    map[(id, Metadata.Value()) := Object([], [], []), (id, ObjectData.Value()) := Object(objectRefs, cells, [])]
  }

  /** Parsers that accept any payload and yield the given property set. */
  function FixedParsers(props: ObjectPropSet): Parsers {
    Parsers(_ => Ok(JcId(0)), _ => Ok(props))
  }

  /** The object-ref check is one-sided: declared object ids outnumbering
      the object refs pass, and the surplus id has no entry; declared ids
      outnumbered by the object refs fail. */
  lemma ObjectRefCheckIsOneSided(id: ExGuid, ctx: ExGuid, space: ExGuid, a: CompactId, b: CompactId, x: ExGuid)
    ensures var props := ObjectPropSet([a, b], [], [], []);
            Parse(id, ctx, space, PlainObject(id, [x], []), map[], FixedParsers(props))
            == Ok(SharedObject(ctx, JcId(0), props, None, MappingTable([(a, x)], [])))
    ensures var props := ObjectPropSet([a], [], [], []);
            Parse(id, ctx, space, PlainObject(id, [x, x], []), map[], FixedParsers(props))
            == Err(ObjectRefMismatch)
  {
    var props := ObjectPropSet([a, b], [], [], []);
    var m := BuildMapping(props, [x], [], space);
    assert |m.objects| == 1 && m.objects[0] == (a, x);
    assert m.objects == [(a, x)];
  }

  /** The summed check does not match the two cell zips one by one: a
      declared context id with only a cross-space cell passes, and neither
      gets a mapping entry. */
  lemma CellCheckIsSummed(id: ExGuid, ctx: ExGuid, space: ExGuid, other: ExGuid, a: CompactId, c: ExGuid)
    requires other != space
    ensures var props := ObjectPropSet([], [], [a], []);
            Parse(id, ctx, space, PlainObject(id, [], [CellId(c, other)]), map[], FixedParsers(props))
            == Ok(SharedObject(ctx, JcId(0), props, None, MappingTable([], [])))
  {
    assert ContextRefs([CellId(c, other)], space) == [];
  }

  /** Pairing is by position, not by id: declared ids [A, B] over object
      refs [X, Y] map A to X and B to Y. */
  lemma PairingIsPositional(id: ExGuid, ctx: ExGuid, space: ExGuid, a: CompactId, b: CompactId, x: ExGuid, y: ExGuid)
    ensures var props := ObjectPropSet([a, b], [], [], []);
            var r := Parse(id, ctx, space, PlainObject(id, [x, y], []), map[], FixedParsers(props));
            r.Ok? && r.value.mapping.objects == [(a, x), (b, y)]
  {
  }
}
